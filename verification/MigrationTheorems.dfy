/** What a migration promises wherever it is stopped, and when running it again mends it. */
module MigrationTheorems {
  import opened Wrappers
  import opened Migration

  // ---- Stopping and ending ---------------------------------------------------------------

  lemma AfterNext(g: Db, plan: seq<Write>, k: nat)
    requires k < |plan|
    ensures After(g, plan[..k + 1]) ==
            match After(g, plan[..k]) case Err(e) => Err(e) case Ok(d) => Apply(d, plan[k])
  {
    assert plan[..k + 1][..k] == plan[..k];
  }

  lemma {:induction false} EarlierIsReached(g: Db, plan: seq<Write>, j: nat, k: nat)
    requires j <= k <= |plan| && After(g, plan[..k]).Ok?
    ensures After(g, plan[..j]).Ok?
    decreases k
  {
    if j < k {
      AfterNext(g, plan, k - 1);
      EarlierIsReached(g, plan, j, k - 1);
    }
  }

  lemma EndsUnique(g: Db, plan: seq<Write>, a: nat, ha: Db, b: nat, hb: Db)
    requires Reaches(g, plan, a, ha) && Ends(g, plan, b, hb)
    ensures a <= b && (Ends(g, plan, a, ha) ==> a == b && ha == hb)
  {
    if b < a {
      EarlierIsReached(g, plan, b + 1, a);
      AfterNext(g, plan, b);
    } else if a < b {
      EarlierIsReached(g, plan, a + 1, b);
      AfterNext(g, plan, a);
    }
  }

  /** Every plan ends somewhere. */
  lemma {:induction false} EndOf(g: Db, plan: seq<Write>, k: nat, h: Db) returns (j: nat, d: Db)
    requires Reaches(g, plan, k, h)
    ensures Ends(g, plan, j, d)
    decreases |plan| - k
  {
    if k == |plan| || Apply(h, plan[k]).Err? { return k, h; }
    AfterNext(g, plan, k);
    j, d := EndOf(g, plan, k + 1, Apply(h, plan[k]).value);
  }

  lemma {:induction false} IdlePrefix(h: Db, plan: seq<Write>, k: nat)
    requires k <= |plan| && forall i | 0 <= i < k :: Apply(h, plan[i]) == Ok(h)
    ensures After(h, plan[..k]) == Ok(h)
  {
    if k > 0 {
      IdlePrefix(h, plan, k - 1);
      AfterNext(h, plan, k - 1);
    }
  }

  /** When the writes already done change nothing any more, running the plan again goes on where it stopped. */
  lemma RerunGoesOn(g: Db, plan: seq<Write>, k: nat, h: Db, k2: nat, h2: Db)
    requires Reaches(g, plan, k, h) && Ends(h, plan, k2, h2)
    requires forall i | 0 <= i < k :: Apply(h, plan[i]) == Ok(h)
    ensures Ends(g, plan, k2, h2)
  {
    if k2 < k {
      IdlePrefix(h, plan, k2);
    } else {
      IdlePrefix(h, plan, k);
      assert plan[..k2] == plan[..k] + plan[k..k2];
      AfterAppend(h, plan[..k], plan[k..k2]);
      AfterAppend(g, plan[..k], plan[k..k2]);
    }
  }

  // ---- The upgrade to 0.4.0, phase by phase ----------------------------------------------

  predicate HasSchema(db: Db, name: CollectionName, v: Version) {
    name in db.collections && db.collections[name].validator == Some(v)
  }

  function WithSchema(db: Db, name: CollectionName): Db
    requires name in db.collections
  {
    db.(collections := db.collections[name := db.collections[name].(validator := Some(V040))])
  }

  function PatchedOf(links: map<ObjectId, LinkDoc>, age: int, done: seq<ObjectId>): map<ObjectId, LinkDoc> {
    map id | id in links :: if id in done then Patched(links[id], age) else links[id]
  }

  function AllPatched(links: map<ObjectId, LinkDoc>, age: int): map<ObjectId, LinkDoc> {
    map id | id in links :: Patched(links[id], age)
  }

  lemma {:induction false} ReplacesReached(d: Db, age: int, order: seq<ObjectId>, k: nat)
    requires IsOrder(order, d.links.Keys) && k <= |order|
    ensures After(d, Replaces(d.links, age, order)[..k]) == Ok(d.(links := PatchedOf(d.links, age, order[..k])))
  {
    var plan := Replaces(d.links, age, order);
    if k == 0 {
      assert PatchedOf(d.links, age, []) == d.links;
    } else {
      ReplacesReached(d, age, order, k - 1);
      AfterNext(d, plan, k - 1);
      var before, id := PatchedOf(d.links, age, order[..k - 1]), order[k - 1];
      assert order[..k] == order[..k - 1] + [id];
      assert PatchedOf(d.links, age, order[..k]) == before[id := Patched(d.links[id], age)];
    }
  }

  /** The database once its links are done with. */
  function LinksDone(g: Db, age: int): Db
    requires Links in g.collections
  {
    WithSchema(g, Links).(links := AllPatched(g.links, age))
  }

  lemma FirstOf030(g: Db, age: int, order: seq<ObjectId>, k: nat)
    requires IsOrder(order, g.links.Keys) && 0 < k <= |Upgrade030(g.links, age, order)|
    requires After(g, Upgrade030(g.links, age, order)[..k]).Ok?
    ensures Links in g.collections
    ensures After(g, Upgrade030(g.links, age, order)[..1]) == Ok(WithSchema(g, Links))
  {
    var plan := Upgrade030(g.links, age, order);
    EarlierIsReached(g, plan, 1, k);
    AfterNext(g, plan, 0);
  }

  lemma ReachedLinks(g: Db, age: int, order: seq<ObjectId>, k: nat, h: Db)
    requires IsOrder(order, g.links.Keys) && Reaches(g, Upgrade030(g.links, age, order), k, h)
    requires 0 < k <= |order| + 1
    ensures Links in g.collections && h == WithSchema(g, Links).(links := PatchedOf(g.links, age, order[..k - 1]))
  {
    var plan, patches := Upgrade030(g.links, age, order), Replaces(g.links, age, order);
    FirstOf030(g, age, order, k);
    assert plan[..k] == plan[..1] + patches[..k - 1];
    AfterAppend(g, plan[..1], patches[..k - 1]);
    ReplacesReached(WithSchema(g, Links), age, order, k - 1);
  }

  lemma ReachedLate(g: Db, age: int, order: seq<ObjectId>, k: nat, h: Db)
    requires IsOrder(order, g.links.Keys) && Reaches(g, Upgrade030(g.links, age, order), k, h)
    requires k > |order|
    ensures Links in g.collections && Reaches(LinksDone(g, age), SessionMods(), k - 1 - |order|, h)
  {
    var plan, j := Upgrade030(g.links, age, order), k - 1 - |order|;
    FirstOf030(g, age, order, k);
    EarlierIsReached(g, plan, |order| + 1, k);
    var d := After(g, plan[..|order| + 1]).value;
    ReachedLinks(g, age, order, |order| + 1, d);
    assert PatchedOf(g.links, age, order[..|order|]) == AllPatched(g.links, age);
    assert plan[..k] == plan[..|order| + 1] + SessionMods()[..j];
    AfterAppend(g, plan[..|order| + 1], SessionMods()[..j]);
  }

  /** What stands of the session collections' part after j writes. */
  ghost predicate StandsSessions(d: Db, j: nat, h: Db) {
    && h.links == d.links && h.collections.Keys == d.collections.Keys
    && (forall name | name in d.collections :: h.collections[name].indexes == d.collections[name].indexes)
    && (forall name | name in d.collections &&
                      name != InitialSessions && name != StartedSessions && name != CompletedSessions ::
          h.collections[name] == d.collections[name])
    && (forall name | name in d.collections ::
          h.collections[name] == d.collections[name] || h.collections[name].validator == Some(V040))
    && (j >= 1 ==> HasSchema(h, InitialSessions, V040))
    && (j >= 2 ==> HasSchema(h, StartedSessions, V040))
    && (j >= 3 ==> HasSchema(h, CompletedSessions, V040))
    && (if j < 4 then h.descriptions == d.descriptions
        else d.descriptions != [] && h.descriptions == d.descriptions[0 := Description(V040, true)])
  }

  lemma {:induction false} ReachedSessions(d: Db, j: nat, h: Db)
    requires Reaches(d, SessionMods(), j, h)
    ensures StandsSessions(d, j, h)
    decreases j
  {
    if j > 0 {
      AfterNext(d, SessionMods(), j - 1);
      var before := After(d, SessionMods()[..j - 1]).value;
      ReachedSessions(d, j - 1, before);
      assert Apply(before, SessionMods()[j - 1]) == Ok(h);
    }
  }

  /** The links end up the same whatever order they are patched in, and so does the whole upgrade. */
  lemma OrderIrrelevant(g: Db, age: int, o1: seq<ObjectId>, k1: nat, h1: Db, o2: seq<ObjectId>, k2: nat, h2: Db)
    requires IsOrder(o1, g.links.Keys) && Ends(g, Upgrade030(g.links, age, o1), k1, h1)
    requires IsOrder(o2, g.links.Keys) && Ends(g, Upgrade030(g.links, age, o2), k2, h2)
    ensures h1 == h2
  {
    if Links in g.collections {
      EndsLate(g, age, o1, k1, h1);
      EndsLate(g, age, o2, k2, h2);
      EndsUnique(LinksDone(g, age), SessionMods(), k1 - 1 - |o1|, h1, k2 - 1 - |o2|, h2);
    } else {
      if k1 > 0 { FirstOf030(g, age, o1, k1); }
      if k2 > 0 { FirstOf030(g, age, o2, k2); }
    }
  }

  lemma EndsLate(g: Db, age: int, order: seq<ObjectId>, k: nat, h: Db)
    requires IsOrder(order, g.links.Keys) && Links in g.collections
    requires Ends(g, Upgrade030(g.links, age, order), k, h)
    ensures k > |order| && Ends(LinksDone(g, age), SessionMods(), k - 1 - |order|, h)
  {
    var plan := Upgrade030(g.links, age, order);
    assert plan[0] == CollMod(Links, V040);
    assert forall i | 1 <= i <= |order| :: plan[i] == Replaces(g.links, age, order)[i - 1];
    ReachedLate(g, age, order, k, h);
    if k < |plan| { assert plan[k] == SessionMods()[k - 1 - |order|]; }
  }

  /** Nothing an interrupted upgrade has done is changed by doing it again. */
  lemma DoneIsIdle(g: Db, age: int, order: seq<ObjectId>, k: nat, h: Db, i: nat)
    requires IsOrder(order, g.links.Keys) && Reaches(g, Upgrade030(g.links, age, order), k, h)
    requires i < k < |Upgrade030(g.links, age, order)|
    ensures Apply(h, Upgrade030(g.links, age, order)[i]) == Ok(h)
  {
    var plan, n := Upgrade030(g.links, age, order), |order|;
    if k <= n + 1 {
      ReachedLinks(g, age, order, k, h);
    } else {
      ReachedLate(g, age, order, k, h);
      ReachedSessions(LinksDone(g, age), k - 1 - n, h);
    }
    if i == 0 {
      assert HasSchema(h, Links, V040);
      SetAgain(h, Links);
    } else if i <= n {
      var id := order[i - 1];
      assert plan[i] == ReplaceLink(id, Patched(g.links[id], age));
      assert k <= n + 1 ==> order[..k - 1][i - 1] == id;
      assert h.links[id] == Patched(g.links[id], age);
      assert h.links[id := h.links[id]] == h.links;
    } else {
      assert plan[i] == SessionMods()[i - 1 - n];
      SetAgain(h, if i == n + 1 then InitialSessions else if i == n + 2 then StartedSessions else CompletedSessions);
    }
  }

  lemma SetAgain(h: Db, name: CollectionName)
    requires HasSchema(h, name, V040)
    ensures Apply(h, CollMod(name, V040)) == Ok(h)
  {
    assert h.collections[name := h.collections[name]] == h.collections;
  }

  lemma SamePatches(g: Db, age: int, order: seq<ObjectId>, k: nat, h: Db)
    requires IsOrder(order, g.links.Keys) && Reaches(g, Upgrade030(g.links, age, order), k, h)
    ensures h.links.Keys == g.links.Keys
    ensures Replaces(h.links, age, order) == Replaces(g.links, age, order)
    ensures k < |Upgrade030(g.links, age, order)| ==> h.descriptions == g.descriptions
  {
    if k == 0 {
    } else if k <= |order| + 1 {
      ReachedLinks(g, age, order, k, h);
    } else {
      ReachedLate(g, age, order, k, h);
      ReachedSessions(LinksDone(g, age), k - 1 - |order|, h);
    }
  }

  /**
   An upgrade from 0.3.0 to 0.4.0 that was stopped after any of its writes and is then run again ends in the database
   an uninterrupted run ends in, whatever orders the links were read in.
   */
  lemma UpgradeRestarts(g: Db, age: int, o1: seq<ObjectId>, k: nat, h: Db,
                        o2: seq<ObjectId>, k2: nat, h2: Db, o3: seq<ObjectId>, k3: nat, h3: Db)
    requires Recorded(g) == Some(V030) && IsOrder(o1, g.links.Keys)
    requires Reaches(g, PlanFor(V040, g, age, o1), k, h)
    requires IsOrder(o2, h.links.Keys) && Ends(h, PlanFor(V040, h, age, o2), k2, h2)
    requires IsOrder(o3, g.links.Keys) && Ends(g, PlanFor(V040, g, age, o3), k3, h3)
    ensures h2 == h3
  {
    var plan := Upgrade030(g.links, age, o1);
    SamePatches(g, age, o1, k, h);
    if k == |plan| {
      ReachedLate(g, age, o1, k, h);
      ReachedSessions(LinksDone(g, age), 4, h);
      assert h2 == h;
      OrderIrrelevant(g, age, o1, k, h, o3, k3, h3);
    } else {
      forall i | 0 <= i < k ensures Apply(h, plan[i]) == Ok(h) { DoneIsIdle(g, age, o1, k, h, i); }
      var j, d := EndOf(h, plan, 0, h);
      RerunGoesOn(g, plan, k, h, j, d);
      OrderIrrelevant(g, age, o1, j, d, o3, k3, h3);
      OrderIrrelevant(h, age, o1, j, d, o2, k2, h2);
    }
  }

  /**
   A complete upgrade to 0.4.0 gives every link a retirement date its age after its creation and changes nothing else
   about the links; it sets the four validators and the version, and no index.
   */
  lemma UpgradeResult(g: Db, age: int, order: seq<ObjectId>, h: Db)
    requires Recorded(g) == Some(V030) && IsOrder(order, g.links.Keys)
    requires Reaches(g, PlanFor(V040, g, age, order), |PlanFor(V040, g, age, order)|, h)
    ensures h.links.Keys == g.links.Keys
    ensures forall id | id in g.links ::
              h.links[id] == g.links[id].(retiresAt := Some(g.links[id].createdAt + age * 1000))
    ensures h.collections.Keys == g.collections.Keys
    ensures forall name | name in g.collections ::
              h.collections[name] == if name in {Links, InitialSessions, StartedSessions, CompletedSessions}
                                     then g.collections[name].(validator := Some(V040)) else g.collections[name]
    ensures h.descriptions == g.descriptions[0 := Description(V040, true)]
  {
    var k := |PlanFor(V040, g, age, order)|;
    ReachedLate(g, age, order, k, h);
    ReachedSessions(LinksDone(g, age), 4, h);
  }

  // ---- Fresh installs and the other upgrades ---------------------------------------------

  /** What an installation at 0.3.0 or 0.4.0 has done after k writes. */
  ghost predicate StandsFresh(g: Db, v: Version, k: nat, h: Db) {
    && (if k >= 1 then HasSchema(h, InitialSessions, v) && InitialSessions !in g.collections else h == g)
    && (k >= 2 ==> HasSchema(h, StartedSessions, v))
    && (k >= 3 ==> HasSchema(h, CompletedSessions, v))
    && (k >= 4 ==> HasSchema(h, Links, v))
    && (k == 4 ==> h.collections[Links].indexes == map[])
    && (k >= 5 ==> HasSchema(h, Links, v) && h.collections[Links].indexes == map[Username := true])
    && h.descriptions == if k >= 7 then g.descriptions + [Description(v, true)] else g.descriptions
  }

  lemma CreatesNext(g: Db, v: Version, k: nat, before: Db, h: Db)
    requires 0 < k <= 4 && StandsFresh(g, v, k - 1, before) && Apply(before, Initialize(v)[k - 1]) == Ok(h)
    ensures StandsFresh(g, v, k, h)
  {
    var name := if k == 1 then InitialSessions else if k == 2 then StartedSessions
                else if k == 3 then CompletedSessions else Links;
    assert Initialize(v)[k - 1] == CreateCollection(name, v);
  }

  lemma DescribesNext(g: Db, v: Version, k: nat, before: Db, h: Db)
    requires 4 < k <= 7 && StandsFresh(g, v, k - 1, before) && Apply(before, Initialize(v)[k - 1]) == Ok(h)
    ensures StandsFresh(g, v, k, h)
  {
    assert Initialize(v)[k - 1] == if k == 5 then CreateIndex(Links, Username, true)
                                   else if k == 6 then CreateCollection(Descriptions, v)
                                   else InsertDescription(Description(v, true));
  }

  lemma {:induction false} ReachedFresh(g: Db, v: Version, k: nat, h: Db)
    requires Reaches(g, Initialize(v), k, h)
    ensures StandsFresh(g, v, k, h)
    decreases k
  {
    if k > 0 {
      AfterNext(g, Initialize(v), k - 1);
      var before := After(g, Initialize(v)[..k - 1]).value;
      ReachedFresh(g, v, k - 1, before);
      if k <= 4 { CreatesNext(g, v, k, before, h); } else { DescribesNext(g, v, k, before, h); }
    }
  }

  /** What an upgrade from 0.2.1 to 0.3.0 has done after k writes. */
  ghost predicate Stands021(g: Db, k: nat, h: Db) {
    && h.links == g.links
    && (if k >= 1 then HasSchema(h, Links, V030) && Links in g.collections else h == g)
    && (Links in g.collections ==>
          Links in h.collections && h.collections[Links].indexes == g.collections[Links].indexes)
    && (k >= 2 ==> Sessions !in h.collections)
    && (if k >= 3 then HasSchema(h, InitialSessions, V030)
        else InitialSessions in h.collections <==> InitialSessions in g.collections)
    && (k >= 4 ==> HasSchema(h, StartedSessions, V030))
    && (k >= 5 ==> HasSchema(h, CompletedSessions, V030))
    && (if k < 6 then h.descriptions == g.descriptions
        else g.descriptions != [] && h.descriptions == g.descriptions[0 := Description(V030, true)])
  }

  lemma {:induction false} Reached021(g: Db, k: nat, h: Db)
    requires Reaches(g, Upgrade021(), k, h)
    ensures Stands021(g, k, h)
    decreases k
  {
    if k > 0 {
      AfterNext(g, Upgrade021(), k - 1);
      var before := After(g, Upgrade021()[..k - 1]).value;
      Reached021(g, k - 1, before);
      assert Apply(before, Upgrade021()[k - 1]) == Ok(h);
    }
  }

  lemma LastWrite(g: Db, plan: seq<Write>, k: nat, h: Db) returns (before: Db)
    requires 0 < k && Reaches(g, plan, k, h)
    ensures Reaches(g, plan, k - 1, before) && Apply(before, plan[k - 1]) == Ok(h)
  {
    AfterNext(g, plan, k - 1);
    before := After(g, plan[..k - 1]).value;
  }

  /** An empty collection with a validator and no index. */
  function Made(v: Version): Collection {
    Collection(Some(v), map[])
  }

  /**
   A complete upgrade to 0.3.0 leaves the links as they are, in a collection with a new validator and the old indexes;
   it drops the old sessions and creates the three new collections, without an index.
   */
  lemma Upgrade021Result(g: Db, h: Db)
    requires Reaches(g, Upgrade021(), 6, h)
    ensures Links in g.collections && HasNoSessions(g) && g.descriptions != []
    ensures h.collections ==
            (g.collections - {Sessions})[Links := g.collections[Links].(validator := Some(V030))]
              [InitialSessions := Made(V030)][StartedSessions := Made(V030)][CompletedSessions := Made(V030)]
    ensures h.links == g.links && h.descriptions == g.descriptions[0 := Description(V030, true)]
  {
    var d5 := LastWrite(g, Upgrade021(), 6, h);
    var d4 := LastWrite(g, Upgrade021(), 5, d5);
    var d3 := LastWrite(g, Upgrade021(), 4, d4);
    var d2 := LastWrite(g, Upgrade021(), 3, d3);
    var d1 := LastWrite(g, Upgrade021(), 2, d2);
    AfterNext(g, Upgrade021(), 0);
    assert d2.collections == (g.collections - {Sessions})[Links := g.collections[Links].(validator := Some(V030))];
    assert h.collections == d2.collections[InitialSessions := Made(V030)][StartedSessions := Made(V030)]
                                          [CompletedSessions := Made(V030)];
  }

  lemma InstallsLinks(g: Db, v: Version, d: Db, e: Db)
    requires Reaches(g, Initialize(v), 3, d) && Reaches(g, Initialize(v), 5, e)
    ensures Links !in d.collections
    ensures e == d.(collections := d.collections[Links := Collection(Some(v), map[Username := true])])
  {
    var d4 := LastWrite(g, Initialize(v), 5, e);
    AfterNext(g, Initialize(v), 3);
    assert Apply(d, CreateCollection(Links, v)) == Ok(d4);
    assert Apply(d4, CreateIndex(Links, Username, true)) == Ok(e);
    var indexed := Made(v).(indexes := map[][Username := true]);
    assert e.collections == d.collections[Links := Made(v)][Links := indexed];
  }

  lemma InstallsDescription(g: Db, v: Version, e: Db, h: Db)
    requires Reaches(g, Initialize(v), 5, e) && Reaches(g, Initialize(v), 7, h)
    ensures Descriptions !in e.collections
    ensures h.collections == e.collections[Descriptions := Made(v)]
    ensures h.links == e.links && h.descriptions == e.descriptions + [Description(v, true)]
  {
    var d6 := LastWrite(g, Initialize(v), 7, h);
    AfterNext(g, Initialize(v), 5);
    assert Apply(e, CreateCollection(Descriptions, v)) == Ok(d6);
    assert Apply(d6, InsertDescription(Description(v, true))) == Ok(h);
  }

  /**
   A complete installation of 0.3.0 or 0.4.0 creates the three session collections, the links with their unique username
   index, and the description, and changes nothing that was there.
   */
  lemma InstallResult(g: Db, v: Version, h: Db)
    requires Reaches(g, Initialize(v), 7, h)
    ensures g.collections.Keys !! {Links, InitialSessions, StartedSessions, CompletedSessions, Descriptions}
    ensures h.collections ==
            g.collections[InitialSessions := Made(v)][StartedSessions := Made(v)][CompletedSessions := Made(v)]
              [Links := Collection(Some(v), map[Username := true])][Descriptions := Made(v)]
    ensures h.links == g.links && h.descriptions == g.descriptions + [Description(v, true)]
  {
    EarlierIsReached(g, Initialize(v), 3, 7);
    var d3 := After(g, Initialize(v)[..3]).value;
    EarlierIsReached(g, Initialize(v), 5, 7);
    var d5 := After(g, Initialize(v)[..5]).value;
    InstallsLinks(g, v, d3, d5);
    InstallsDescription(g, v, d5, h);
    var d2 := LastWrite(g, Initialize(v), 3, d3);
    var d1 := LastWrite(g, Initialize(v), 2, d2);
    AfterNext(g, Initialize(v), 0);
    assert d3.collections ==
           g.collections[InitialSessions := Made(v)][StartedSessions := Made(v)][CompletedSessions := Made(v)];
  }

  /** A complete installation of 0.2.1 adds two indexes that are not unique and the description. */
  lemma Install021Result(g: Db, h: Db)
    requires Reaches(g, Initialize021(), 3, h)
    ensures h.collections ==
            var sessions, links := Present(g, Sessions), Present(g, Links);
            g.collections[Sessions := sessions.(indexes := sessions.indexes[SessionId := false])]
              [Links := links.(indexes := links.indexes[Username := false])][Descriptions := Present(g, Descriptions)]
    ensures h.links == g.links && h.descriptions == g.descriptions + [Description(V021, true)]
  {
    var d2 := LastWrite(g, Initialize021(), 3, h);
    var d1 := LastWrite(g, Initialize021(), 2, d2);
    AfterNext(g, Initialize021(), 0);
  }

  predicate HasNoSessions(g: Db) {
    g.collections.Keys !! {InitialSessions, StartedSessions, CompletedSessions}
  }

  /** An installation at 0.2.1 only ever adds its two collections and its own description. */
  lemma {:induction false} ReachedFresh021(g: Db, k: nat, h: Db)
    requires Reaches(g, Initialize021(), k, h)
    ensures h.links == g.links
    ensures h.descriptions == if k == 3 then g.descriptions + [Description(V021, true)] else g.descriptions
    ensures k >= 1 ==> Sessions in h.collections && h.collections[Sessions].indexes ==
                       Present(g, Sessions).indexes[SessionId := false]
    ensures k >= 2 ==> Links in h.collections && h.collections[Links].indexes ==
                       Present(g, Links).indexes[Username := false]
    ensures HasNoSessions(h) <==> HasNoSessions(g)
    decreases k
  {
    if k > 0 {
      AfterNext(g, Initialize021(), k - 1);
      var before := After(g, Initialize021()[..k - 1]).value;
      ReachedFresh021(g, k - 1, before);
      assert Apply(before, Initialize021()[k - 1]) == Ok(h);
    }
  }

  /** The eight writes of a fresh 0.4.1: those of 0.4.0, then the version. */
  lemma ReachedFresh041(g: Db, k: nat, h: Db) returns (d: Db)
    requires Reaches(g, Initialize(V040) + Upgrade040(), k, h)
    ensures Reaches(g, Initialize(V040), if k < 7 then k else 7, d)
    ensures k <= 7 ==> d == h
    ensures k == 8 ==> d.descriptions != [] && h == d.(descriptions := d.descriptions[0 := Description(V041, true)])
  {
    var plan := Initialize(V040) + Upgrade040();
    if k <= 7 {
      assert plan[..k] == Initialize(V040)[..k];
      d := h;
    } else {
      EarlierIsReached(g, plan, 7, 8);
      assert plan[..7] == Initialize(V040)[..7];
      AfterNext(g, plan, 7);
      d := After(g, plan[..7]).value;
    }
  }

  // ---- The recorded version never runs ahead ---------------------------------------------

  ghost predicate FourHave(db: Db, versions: set<Version>) {
    forall name | name in {Links, InitialSessions, StartedSessions, CompletedSessions} ::
      name in db.collections && db.collections[name].validator.Some? && db.collections[name].validator.value in versions
  }

  ghost predicate NotAhead(db: Db) {
    && (Recorded(db) == Some(V030) ==> FourHave(db, {V030, V040}))
    && (Recorded(db) == Some(V040) || Recorded(db) == Some(V041) ==> FourHave(db, {V040}))
  }

  lemma UpgradeNotAhead(g: Db, age: int, order: seq<ObjectId>, k: nat, h: Db)
    requires NotAhead(g) && Recorded(g) == Some(V030) && IsOrder(order, g.links.Keys)
    requires Reaches(g, Upgrade030(g.links, age, order), k, h)
    ensures NotAhead(h)
  {
    assert FourHave(g, {V030, V040});
    if k > |order| + 1 {
      ReachedLate(g, age, order, k, h);
      var d := LinksDone(g, age);
      assert HasSchema(d, Links, V040);
      ReachedSessions(d, k - 1 - |order|, h);
      assert HasSchema(h, Links, V040);
      forall name | name in {Links, InitialSessions, StartedSessions, CompletedSessions}
        ensures name in h.collections && h.collections[name].validator.Some? &&
                h.collections[name].validator.value in {V030, V040} {
        assert name in g.collections && g.collections[name].validator.value in {V030, V040};
      }
    } else if k > 0 {
      ReachedLinks(g, age, order, k, h);
    }
  }

  /**
   At every write of every installation and upgrade, a recorded 0.3.0 means the four collections exist with validators
   of 0.3.0 or later, and a recorded 0.4.0 or 0.4.1 that all four have those of 0.4.0.
   */
  lemma VersionNeverAhead(service: Version, g: Db, age: int, order: seq<ObjectId>, k: nat, h: Db)
    requires NotAhead(g) && IsOrder(order, g.links.Keys) && Reaches(g, PlanFor(service, g, age, order), k, h)
    ensures NotAhead(h)
  {
    match Decide(service, Recorded(g)) {
      case Unsupported =>
      case NotRequired =>
      case Fresh021 => ReachedFresh021(g, k, h);
      case Fresh(v) => ReachedFresh(g, v, k, h);
      case Fresh041 =>
        var d := ReachedFresh041(g, k, h);
        ReachedFresh(g, V040, if k < 7 then k else 7, d);
      case From021 => Reached021(g, k, h);
      case From030 => UpgradeNotAhead(g, age, order, k, h);
      case From040 => if k == 1 { AfterNext(g, Upgrade040(), 0); }
    }
  }

  datatype Attempt = Attempt(service: Version, age: int, order: seq<ObjectId>, writes: nat)

  /** Migrations one after the other, each of any version of the service and stopped anywhere. */
  ghost predicate Attempts(g: Db, attempts: seq<Attempt>, h: Db)
    decreases |attempts|
  {
    if attempts == [] then g == h
    else
      var a := attempts[0];
      && IsOrder(a.order, g.links.Keys)
      && exists d :: Reaches(g, PlanFor(a.service, g, a.age, a.order), a.writes, d) && Attempts(d, attempts[1..], h)
  }

  /** However often and wherever migrations are stopped, what is recorded is never ahead of what is there. */
  lemma {:induction false} HistoryNeverAhead(g: Db, attempts: seq<Attempt>, h: Db)
    requires NotAhead(g) && Attempts(g, attempts, h)
    ensures NotAhead(h)
    decreases |attempts|
  {
    if attempts != [] {
      var a := attempts[0];
      var d :| Reaches(g, PlanFor(a.service, g, a.age, a.order), a.writes, d) && Attempts(d, attempts[1..], h);
      VersionNeverAhead(a.service, g, a.age, a.order, a.writes, d);
      HistoryNeverAhead(d, attempts[1..], h);
    }
  }

  // ---- Installations and upgrades agree --------------------------------------------------

  /** The schema a version of the service works with; 0.4.1 brought no new one. */
  function SchemaOf(service: Version): Version {
    if service == V041 then V040 else service
  }

  ghost predicate IsAt(db: Db, service: Version) {
    Recorded(db) == Some(service) && FourHave(db, {SchemaOf(service)})
  }

  ghost predicate Completes(service: Version, g: Db, age: int, order: seq<ObjectId>, h: Db) {
    && IsOrder(order, g.links.Keys)
    && !Decide(service, Recorded(g)).Unsupported? && !Decide(service, Recorded(g)).NotRequired?
    && Reaches(g, PlanFor(service, g, age, order), |PlanFor(service, g, age, order)|, h)
  }

  lemma CompletedRecords(service: Version, g: Db, age: int, order: seq<ObjectId>, h: Db)
    requires Completes(service, g, age, order, h)
    ensures Recorded(h) == Some(service)
  {
    match Decide(service, Recorded(g)) {
      case Fresh021 => ReachedFresh021(g, 3, h);
      case Fresh(v) => ReachedFresh(g, v, 7, h);
      case Fresh041 => var _ := ReachedFresh041(g, 8, h);
      case From021 => Reached021(g, 6, h);
      case From030 => UpgradeResult(g, age, order, h);
      case From040 => AfterNext(g, Upgrade040(), 0);
    }
  }

  /** A completed migration to 0.3.0 or later leaves exactly that version's four validators. */
  lemma CompletedIsAt(service: Version, g: Db, age: int, order: seq<ObjectId>, h: Db)
    requires NotAhead(g) && Completes(service, g, age, order, h) && service != V021
    ensures IsAt(h, service)
  {
    CompletedRecords(service, g, age, order, h);
    VersionNeverAhead(service, g, age, order, |PlanFor(service, g, age, order)|, h);
    if service == V030 {
      if Recorded(g).None? { ReachedFresh(g, V030, 7, h); } else { Reached021(g, 6, h); }
    }
  }

  /** Whichever way two databases came to a version, by installing it or step by step, their schemas are the same. */
  lemma InstallsAndUpgradesAgree(service: Version, g1: Db, age1: int, o1: seq<ObjectId>, h1: Db,
                                 g2: Db, age2: int, o2: seq<ObjectId>, h2: Db, name: CollectionName)
    requires NotAhead(g1) && Completes(service, g1, age1, o1, h1) && service != V021
    requires NotAhead(g2) && Completes(service, g2, age2, o2, h2)
    requires name in {Links, InitialSessions, StartedSessions, CompletedSessions}
    ensures Recorded(h1) == Recorded(h2)
    ensures name in h1.collections && name in h2.collections
    ensures h1.collections[name].validator == h2.collections[name].validator
  {
    CompletedIsAt(service, g1, age1, o1, h1);
    CompletedIsAt(service, g2, age2, o2, h2);
  }

  ghost predicate HasUniqueIndex(db: Db) {
    Links in db.collections && Username in db.collections[Links].indexes && db.collections[Links].indexes[Username]
  }

  /** Only installing 0.3.0 or later makes the username index unique; no upgrade does. */
  lemma UniqueIndexIff(service: Version, g: Db, age: int, order: seq<ObjectId>, h: Db)
    requires Completes(service, g, age, order, h)
    ensures HasUniqueIndex(h) <==> if Recorded(g).None? then service != V021 else HasUniqueIndex(g)
  {
    match Decide(service, Recorded(g)) {
      case Fresh021 => ReachedFresh021(g, 3, h);
      case Fresh(v) => ReachedFresh(g, v, 7, h);
      case Fresh041 =>
        var d := ReachedFresh041(g, 8, h);
        ReachedFresh(g, V040, 7, d);
      case From021 => Reached021(g, 6, h);
      case From030 => UpgradeResult(g, age, order, h);
      case From040 => AfterNext(g, Upgrade040(), 0);
    }
  }

  /** A second run changes nothing: not required from 0.3.0 on, refused for 0.2.1. */
  lemma SecondRun(service: Version, g: Db, age: int, order: seq<ObjectId>, h: Db, o2: seq<ObjectId>, k2: nat, h2: Db)
    requires Completes(service, g, age, order, h)
    requires IsOrder(o2, h.links.Keys) && Ends(h, PlanFor(service, h, age, o2), k2, h2)
    ensures h2 == h
    ensures AnswerTo(service, h, age, o2, k2) == if service == V021 then MigrationError else MigrationNotRequired
  {
    CompletedRecords(service, g, age, order, h);
  }

  /** The pairs of versions there is a path for: an installation, the same version, or one step up. */
  predicate IsSupported(service: Version, recorded: Option<Version>) {
    match recorded
    case None => !service.OtherVersion?
    case Some(v) =>
      match service
      case V021 => false
      case V030 => v == V021 || v == V030
      case V040 => v == V030 || v == V040
      case V041 => v == V040 || v == V041
      case OtherVersion(_) => false
  }

  lemma UnsupportedChangesNothing(service: Version, g: Db, age: int, order: seq<ObjectId>, k: nat, h: Db)
    requires IsOrder(order, g.links.Keys) && Ends(g, PlanFor(service, g, age, order), k, h)
    ensures !IsSupported(service, Recorded(g)) ==> h == g && AnswerTo(service, g, age, order, k) == MigrationError
    ensures IsSupported(service, Recorded(g)) && AnswerTo(service, g, age, order, k) == MigrationError ==>
              k < |PlanFor(service, g, age, order)|
  {
  }

  // ---- When running it again mends a stopped migration -----------------------------------

  /** How many writes a stopped migration may have done for a second run to finish it. */
  predicate IsRestartable(path: Decision, k: nat) {
    match path
    case Fresh(_) => k == 0 || k == 7
    case Fresh041 => k == 0 || k >= 7
    case From021 => k <= 2 || k == 6
    case _ => true
  }

  lemma RestartFresh021(g: Db, k: nat, h: Db, k2: nat, h2: Db, end: Db)
    requires g.descriptions == [] && Reaches(g, Initialize021(), k, h) && k < 3 && Ends(h, Initialize021(), k2, h2)
    requires Ends(g, Initialize021(), 3, end)
    ensures h2 == end
  {
    ReachedFresh021(g, k, h);
    forall i | 0 <= i < k ensures Apply(h, Initialize021()[i]) == Ok(h) {
      var w := Initialize021()[i];
      var c := Present(h, w.name);
      assert c.indexes[w.field := false] == c.indexes;
      assert h.collections[w.name := c] == h.collections;
    }
    RerunGoesOn(g, Initialize021(), k, h, k2, h2);
    EndsUnique(g, Initialize021(), k2, h2, 3, end);
  }

  /** An installation of 0.3.0 or 0.4.0 stopped in the middle fails at once when run again. */
  lemma RestartFresh(g: Db, v: Version, k: nat, h: Db, k2: nat, h2: Db)
    requires g.descriptions == [] && Reaches(g, Initialize(v), k, h) && 0 < k < 7 && Ends(h, Initialize(v), k2, h2)
    ensures k2 == 0 && h2 == h && Recorded(h2) == None
  {
    ReachedFresh(g, v, k, h);
    assert Initialize(v) + [] == Initialize(v);
    BlockedFresh(h, v, [], k2, h2);
  }

  lemma BlockedFrom021(h: Db, k: nat, d: Db)
    requires InitialSessions in h.collections && Reaches(h, Upgrade021(), k, d)
    ensures k <= 2
  {
    if k > 2 {
      EarlierIsReached(h, Upgrade021(), 2, k);
      EarlierIsReached(h, Upgrade021(), 3, k);
      Reached021(h, 2, After(h, Upgrade021()[..2]).value);
      AfterNext(h, Upgrade021(), 2);
      assert false;
    }
  }

  lemma RestartFrom021(g: Db, k: nat, h: Db, k2: nat, h2: Db, end: Db)
    requires Recorded(g) == Some(V021) && Reaches(g, Upgrade021(), k, h) && k < 6 && Ends(h, Upgrade021(), k2, h2)
    requires Ends(g, Upgrade021(), 6, end)
    ensures h2 == end <==> k <= 2
  {
    Reached021(g, k, h);
    Reached021(g, 6, end);
    if k <= 2 {
      forall i | 0 <= i < k ensures Apply(h, Upgrade021()[i]) == Ok(h) {
        if i == 0 {
          assert h.collections[Links := h.collections[Links]] == h.collections;
        } else {
          assert h.collections - {Sessions} == h.collections;
        }
      }
      RerunGoesOn(g, Upgrade021(), k, h, k2, h2);
      EndsUnique(g, Upgrade021(), k2, h2, 6, end);
    } else {
      BlockedFrom021(h, k2, h2);
      Reached021(h, k2, h2);
    }
  }

  lemma RestartFresh041(g: Db, age: int, k: nat, h: Db, o2: seq<ObjectId>, k2: nat, h2: Db, end: Db)
    requires g.descriptions == [] && Reaches(g, Initialize(V040) + Upgrade040(), k, h) && 0 < k < 8
    requires IsOrder(o2, h.links.Keys) && Ends(h, PlanFor(V041, h, age, o2), k2, h2)
    requires Reaches(g, Initialize(V040) + Upgrade040(), 8, end)
    ensures h2 == end <==> k == 7
  {
    if k == 7 {
      LastWrite041(g, h, end);
      assert Decide(V041, Recorded(h)) == From040;
      AfterNext(h, Upgrade040(), 0);
    } else {
      var _ := ReachedFresh041(g, k, h);
      ReachedFresh(g, V040, k, h);
      BlockedFresh(h, V040, Upgrade040(), k2, h2);
      RecordsIn041(g, end);
    }
  }

  lemma LastWrite041(g: Db, h: Db, end: Db)
    requires g.descriptions == [] && Reaches(g, Initialize(V040) + Upgrade040(), 7, h)
    requires Reaches(g, Initialize(V040) + Upgrade040(), 8, end)
    ensures Recorded(h) == Some(V040) && Apply(h, Upgrade040()[0]) == Ok(end)
  {
    var _ := ReachedFresh041(g, 7, h);
    ReachedFresh(g, V040, 7, h);
    AfterNext(g, Initialize(V040) + Upgrade040(), 7);
  }

  lemma RecordsIn041(g: Db, end: Db)
    requires Reaches(g, Initialize(V040) + Upgrade040(), 8, end)
    ensures end.descriptions != []
  {
    var d := ReachedFresh041(g, 8, end);
    ReachedFresh(g, V040, 7, d);
  }

  lemma BlockedFresh(h: Db, v: Version, rest: seq<Write>, k: nat, d: Db)
    requires InitialSessions in h.collections && Reaches(h, Initialize(v) + rest, k, d)
    ensures k == 0 && d == h
  {
    if k > 0 {
      EarlierIsReached(h, Initialize(v) + rest, 1, k);
      AfterNext(h, Initialize(v) + rest, 0);
      assert false;
    }
  }

  /**
   A migration that would have completed, stopped after k writes and run again, ends where it would have ended exactly
   when k is restartable: always for an installation of 0.2.1 and the upgrades to 0.4.0 and 0.4.1, and for the others
   only before the first or after the last collection is created.
   */
  lemma RestartIff(service: Version, g: Db, age: int, o1: seq<ObjectId>, k: nat, h: Db, end: Db,
                   o2: seq<ObjectId>, k2: nat, h2: Db)
    requires Completes(service, g, age, o1, end)
    requires Reaches(g, PlanFor(service, g, age, o1), k, h)
    requires IsOrder(o2, h.links.Keys) && Ends(h, PlanFor(service, h, age, o2), k2, h2)
    ensures h2 == end <==> IsRestartable(Decide(service, Recorded(g)), k)
  {
    var plan := PlanFor(service, g, age, o1);
    if k == |plan| {
      SecondRun(service, g, age, o1, h, o2, k2, h2);
    } else if service == V040 && Recorded(g) == Some(V030) {
      UpgradeRestarts(g, age, o1, k, h, o2, k2, h2, o1, |plan|, end);
    } else {
      RestartOther(service, g, age, o1, k, h, end, o2, k2, h2);
    }
  }

  lemma RestartOther(service: Version, g: Db, age: int, o1: seq<ObjectId>, k: nat, h: Db, end: Db,
                     o2: seq<ObjectId>, k2: nat, h2: Db)
    requires Completes(service, g, age, o1, end) && !Decide(service, Recorded(g)).From030?
    requires Reaches(g, PlanFor(service, g, age, o1), k, h) && k < |PlanFor(service, g, age, o1)|
    requires IsOrder(o2, h.links.Keys) && Ends(h, PlanFor(service, h, age, o2), k2, h2)
    ensures h2 == end <==> IsRestartable(Decide(service, Recorded(g)), k)
  {
    var plan := PlanFor(service, g, age, o1);
    if k == 0 {
      EndsUnique(g, plan, k2, h2, |plan|, end);
    } else {
      match Decide(service, Recorded(g)) {
        case Fresh021 =>
          ReachedFresh021(g, k, h);
          RestartFresh021(g, k, h, k2, h2, end);
        case Fresh(v) =>
          ReachedFresh(g, v, k, h);
          RestartFresh(g, v, k, h, k2, h2);
          CompletedRecords(service, g, age, o1, end);
        case Fresh041 =>
          RestartFresh041(g, age, k, h, o2, k2, h2, end);
        case From021 =>
          Reached021(g, k, h);
          RestartFrom021(g, k, h, k2, h2, end);
        case From040 =>
      }
    }
  }

  // ---- Which migrations complete ---------------------------------------------------------

  /** What a path needs of the database it starts from. */
  ghost predicate IsReady(path: Decision, g: Db) {
    match path
    case Fresh021 => !Unique(Present(g, Sessions), SessionId) && !Unique(Present(g, Links), Username)
    case Fresh(_) => IsBare(g)
    case Fresh041 => IsBare(g)
    case From021 => Links in g.collections && HasNoSessions(g)
    case From030 =>
      && Links in g.collections && InitialSessions in g.collections && StartedSessions in g.collections
      && CompletedSessions in g.collections
    case _ => true
  }

  predicate Unique(c: Collection, field: Field) {
    field in c.indexes && c.indexes[field]
  }

  ghost predicate IsBare(g: Db) {
    && g.collections.Keys !! {Links, InitialSessions, StartedSessions, CompletedSessions, Descriptions}
    && forall a, b | a in g.links && b in g.links && g.links[a].username == g.links[b].username :: a == b
  }

  lemma CompletesFresh021(g: Db)
    ensures After(g, Initialize021()).Ok? <==>
            !Unique(Present(g, Sessions), SessionId) && !Unique(Present(g, Links), Username)
  {
    AfterNext(g, Initialize021(), 0);
    AfterNext(g, Initialize021(), 1);
    AfterNext(g, Initialize021(), 2);
    assert Initialize021()[..3] == Initialize021();
  }

  /** The three session collections, which every installation and the first upgrade create in one order. */
  function ThreeMore(db: Db, v: Version): Db {
    db.(collections := db.collections[InitialSessions := Collection(Some(v), map[])]
                       [StartedSessions := Collection(Some(v), map[])][CompletedSessions := Collection(Some(v), map[])])
  }

  /** Three creations in a plan, from where they begin. */
  lemma CreatesThree(g: Db, plan: seq<Write>, k: nat, d: Db, v: Version)
    requires Reaches(g, plan, k, d) && k + 3 <= |plan| && plan[k] == CreateCollection(InitialSessions, v)
    requires plan[k + 1] == CreateCollection(StartedSessions, v)
    requires plan[k + 2] == CreateCollection(CompletedSessions, v)
    ensures HasNoSessions(d) ==> Reaches(g, plan, k + 3, ThreeMore(d, v))
    ensures !HasNoSessions(d) ==> After(g, plan[..k + 3]).Err?
  {
    AfterNext(g, plan, k);
    AfterNext(g, plan, k + 1);
    AfterNext(g, plan, k + 2);
  }

  /** What is left of an installation once it has its session collections. */
  lemma CompletesRest(g: Db, v: Version, d: Db)
    requires Reaches(g, Initialize(v), 3, d)
    ensures After(g, Initialize(v)).Ok? <==>
            Links !in d.collections && Descriptions !in d.collections && UsernamesDiffer(d.links)
  {
    var plan := Initialize(v);
    AfterNext(g, plan, 3);
    if Links !in d.collections {
      CompletesLast(g, v, d.(collections := d.collections[Links := Collection(Some(v), map[])]));
    } else if After(g, plan).Ok? {
      assert plan[..7] == plan;
      EarlierIsReached(g, plan, 4, 7);
      assert false;
    }
  }

  lemma CompletesLast(g: Db, v: Version, d: Db)
    requires Reaches(g, Initialize(v), 4, d) && Links in d.collections && d.collections[Links].indexes == map[]
    ensures After(g, Initialize(v)).Ok? <==> Descriptions !in d.collections && UsernamesDiffer(d.links)
  {
    var plan := Initialize(v);
    assert plan[..7] == plan;
    AfterNext(g, plan, 4);
    if UsernamesDiffer(d.links) {
      DescribesLast(g, v, After(g, plan[..5]).value);
    } else if After(g, plan).Ok? {
      EarlierIsReached(g, plan, 5, 7);
      assert false;
    }
  }

  lemma DescribesLast(g: Db, v: Version, d: Db)
    requires Reaches(g, Initialize(v), 5, d)
    ensures After(g, Initialize(v)).Ok? <==> Descriptions !in d.collections
  {
    var plan := Initialize(v);
    assert plan[..7] == plan;
    AfterNext(g, plan, 5);
    AfterNext(g, plan, 6);
  }

  lemma CompletesFresh(g: Db, v: Version)
    ensures After(g, Initialize(v)).Ok? <==> IsBare(g)
  {
    CreatesThree(g, Initialize(v), 0, g, v);
    if HasNoSessions(g) {
      CompletesRest(g, v, ThreeMore(g, v));
    } else if After(g, Initialize(v)).Ok? {
      assert Initialize(v)[..7] == Initialize(v);
      EarlierIsReached(g, Initialize(v), 3, 7);
      assert false;
    }
  }

  lemma CompletesFrom021(g: Db)
    requires g.descriptions != []
    ensures After(g, Upgrade021()).Ok? <==> IsReady(From021, g)
  {
    var plan := Upgrade021();
    assert plan[..6] == plan;
    AfterNext(g, plan, 0);
    AfterNext(g, plan, 1);
    if Links in g.collections {
      var d := After(g, plan[..2]).value;
      assert HasNoSessions(d) <==> HasNoSessions(g);
      CreatesThree(g, plan, 2, d, V030);
      AfterNext(g, plan, 5);
    } else if After(g, plan).Ok? {
      EarlierIsReached(g, plan, 1, 6);
      assert false;
    }
  }

  lemma CompletesSessions(d: Db)
    requires d.descriptions != []
    ensures After(d, SessionMods()).Ok? <==>
            InitialSessions in d.collections && StartedSessions in d.collections && CompletedSessions in d.collections
  {
    var plan := SessionMods();
    assert plan[..4] == plan;
    AfterNext(d, plan, 0);
    AfterNext(d, plan, 1);
    AfterNext(d, plan, 2);
    AfterNext(d, plan, 3);
  }

  lemma CompletesFrom030(g: Db, age: int, order: seq<ObjectId>)
    requires g.descriptions != [] && IsOrder(order, g.links.Keys)
    ensures After(g, Upgrade030(g.links, age, order)).Ok? <==> IsReady(From030, g)
  {
    var plan := Upgrade030(g.links, age, order);
    assert plan[..|plan|] == plan;
    if Links in g.collections {
      var k, h := EndOf(g, plan, 0, g);
      EndsLate(g, age, order, k, h);
      LateCompletes(g, age, order, k, h);
      CompletesSessions(LinksDone(g, age));
    } else if After(g, plan).Ok? {
      FirstOf030(g, age, order, |plan|);
      assert false;
    }
  }

  lemma LateCompletes(g: Db, age: int, order: seq<ObjectId>, k: nat, h: Db)
    requires IsOrder(order, g.links.Keys) && Links in g.collections && k > |order|
    requires Ends(g, Upgrade030(g.links, age, order), k, h)
    requires Ends(LinksDone(g, age), SessionMods(), k - 1 - |order|, h)
    ensures After(g, Upgrade030(g.links, age, order)).Ok? <==> After(LinksDone(g, age), SessionMods()).Ok?
  {
    var plan, d, j := Upgrade030(g.links, age, order), LinksDone(g, age), k - 1 - |order|;
    assert |plan| == |order| + 5 && plan[..|plan|] == plan && SessionMods()[..4] == SessionMods();
    if After(g, plan).Ok? {
      EndsUnique(g, plan, |plan|, After(g, plan).value, k, h);
      assert j == 4;
    }
    if After(d, SessionMods()).Ok? {
      EndsUnique(d, SessionMods(), 4, After(d, SessionMods()).value, j, h);
      assert k == |plan|;
    }
  }

  lemma CompletesFresh041(g: Db)
    ensures After(g, Initialize(V040) + Upgrade040()).Ok? <==> IsBare(g)
  {
    var first, plan := Initialize(V040), Initialize(V040) + Upgrade040();
    CompletesFresh(g, V040);
    if After(g, first).Ok? {
      AfterAppend(g, first, Upgrade040());
      assert first[..7] == first;
      ReachedFresh(g, V040, 7, After(g, first).value);
      AfterNext(After(g, first).value, Upgrade040(), 0);
    } else {
      assert plan[..|plan| - 1] == first;
    }
  }

  /** A supported migration completes exactly when the database is ready for it. */
  lemma CompletesIff(service: Version, g: Db, age: int, order: seq<ObjectId>)
    requires IsOrder(order, g.links.Keys) && IsSupported(service, Recorded(g))
    ensures After(g, PlanFor(service, g, age, order)).Ok? <==> IsReady(Decide(service, Recorded(g)), g)
  {
    match Decide(service, Recorded(g)) {
      case NotRequired =>
      case Fresh021 => CompletesFresh021(g);
      case Fresh(v) => CompletesFresh(g, v);
      case Fresh041 => CompletesFresh041(g);
      case From021 => CompletesFrom021(g);
      case From030 => CompletesFrom030(g, age, order);
      case From040 => AfterNext(g, Upgrade040(), 0);
    }
  }

  /** What a version needs of a database it does not find itself in. */
  ghost predicate IsReadyFor(service: Version, g: Db) {
    match Recorded(g)
    case None =>
      if service == V021 then !Unique(Present(g, Sessions), SessionId) && !Unique(Present(g, Links), Username)
      else IsBare(g)
    case Some(_) =>
      && (service == V030 ==> Links in g.collections && HasNoSessions(g))
      && (service == V040 ==> g.collections.Keys >= {Links, InitialSessions, StartedSessions, CompletedSessions})
  }

  /**
   What a migration answers: not required exactly when the database is at the service's version, except 0.2.1, which
   refuses every database it finds; completed exactly when there is a path and the database is ready for it, and then
   the version is recorded; and otherwise an error.
   */
  lemma AnswerIff(service: Version, g: Db, age: int, order: seq<ObjectId>, k: nat, h: Db)
    requires IsOrder(order, g.links.Keys) && Ends(g, PlanFor(service, g, age, order), k, h)
    ensures
      var answer := AnswerTo(service, g, age, order, k);
      && (answer == MigrationNotRequired <==> service in {V030, V040, V041} && Recorded(g) == Some(service))
      && (answer == MigrationNotRequired ==> h == g)
      && (answer == Completed <==>
          IsSupported(service, Recorded(g)) && Recorded(g) != Some(service) && IsReadyFor(service, g))
      && (answer == Completed ==> Recorded(h) == Some(service))
      && (answer == Completed && service != V021 && NotAhead(g) ==> IsAt(h, service))
      && (!IsSupported(service, Recorded(g)) ==> h == g)
  {
    var plan := PlanFor(service, g, age, order);
    if IsSupported(service, Recorded(g)) && Recorded(g) != Some(service) {
      CompletesIff(service, g, age, order);
      EndsWhole(g, plan, k, h);
      if k == |plan| {
        CompletedRecords(service, g, age, order, h);
        if service != V021 && NotAhead(g) { CompletedIsAt(service, g, age, order, h); }
      }
    }
  }

  lemma EndsWhole(g: Db, plan: seq<Write>, k: nat, h: Db)
    requires Ends(g, plan, k, h)
    ensures k == |plan| <==> After(g, plan).Ok?
  {
    assert plan[..|plan|] == plan;
    if After(g, plan).Ok? { EndsUnique(g, plan, k, h, |plan|, After(g, plan).value); }
  }

  /** The next upgrade goes through: from 0.3.0 on always, from 0.2.1 if no session collections were there before. */
  lemma InstallsAndThenUpgrades(service: Version, g: Db, age: int, order: seq<ObjectId>, h: Db,
                                age2: int, o2: seq<ObjectId>)
    requires NotAhead(g) && Completes(service, g, age, order, h) && IsOrder(o2, h.links.Keys)
    ensures After(EMPTY, PlanFor(service, EMPTY, age, [])).Ok?
    ensures service == V021 && HasNoSessions(g) ==> After(h, PlanFor(V030, h, age2, o2)).Ok?
    ensures service == V030 ==> After(h, PlanFor(V040, h, age2, o2)).Ok?
    ensures service == V040 ==> After(h, PlanFor(V041, h, age2, o2)).Ok?
  {
    CompletesIff(service, EMPTY, age, []);
    match service {
      case V021 => if HasNoSessions(g) { FromOldest(g, age, order, h, age2, o2); }
      case V030 => FromLater(service, g, age, order, h, age2, o2);
      case V040 => FromLater(service, g, age, order, h, age2, o2);
      case _ =>
    }
  }

  lemma FromOldest(g: Db, age: int, order: seq<ObjectId>, h: Db, age2: int, o2: seq<ObjectId>)
    requires Completes(V021, g, age, order, h) && HasNoSessions(g) && IsOrder(o2, h.links.Keys)
    ensures After(h, PlanFor(V030, h, age2, o2)).Ok?
  {
    ReachedFresh021(g, 3, h);
    CompletesIff(V030, h, age2, o2);
  }

  lemma FromLater(service: Version, g: Db, age: int, order: seq<ObjectId>, h: Db, age2: int, o2: seq<ObjectId>)
    requires NotAhead(g) && Completes(service, g, age, order, h) && IsOrder(o2, h.links.Keys)
    requires service == V030 || service == V040
    ensures After(h, PlanFor(if service == V030 then V040 else V041, h, age2, o2)).Ok?
  {
    CompletedIsAt(service, g, age, order, h);
    CompletesIff(if service == V030 then V040 else V041, h, age2, o2);
  }

  lemma CompletesWhole(service: Version, g: Db, age: int, order: seq<ObjectId>) returns (h: Db)
    requires IsOrder(order, g.links.Keys) && After(g, PlanFor(service, g, age, order)).Ok?
    requires !Decide(service, Recorded(g)).Unsupported? && !Decide(service, Recorded(g)).NotRequired?
    ensures Completes(service, g, age, order, h)
  {
    var plan := PlanFor(service, g, age, order);
    assert plan[..|plan|] == plan;
    h := After(g, plan).value;
  }

  /** Every version installs on an empty database. */
  lemma InstallsOnEmpty(service: Version, age: int) returns (h: Db)
    requires !service.OtherVersion?
    ensures Completes(service, EMPTY, age, [], h) && (service != V021 ==> IsAt(h, service))
  {
    CompletesIff(service, EMPTY, age, []);
    h := CompletesWhole(service, EMPTY, age, []);
    if service != V021 { CompletedIsAt(service, EMPTY, age, [], h); }
  }

  /** 0.2.1 installs on an empty database, and the upgrades to 0.3.0, 0.4.0 and 0.4.1 then go through one by one. */
  lemma StepByStep(age: int)
    returns (h1: Db, o1: seq<ObjectId>, h2: Db, o2: seq<ObjectId>, h3: Db, o3: seq<ObjectId>, h4: Db)
    ensures Completes(V021, EMPTY, age, [], h1) && Completes(V030, h1, age, o1, h2)
    ensures Completes(V040, h2, age, o2, h3) && Completes(V041, h3, age, o3, h4) && IsAt(h4, V041)
  {
    h1 := InstallsOnEmpty(V021, age);
    o1, h2 := Upgrades(V021, EMPTY, age, [], h1);
    o2, h3 := Upgrades(V030, h1, age, o1, h2);
    o3, h4 := Upgrades(V040, h2, age, o2, h3);
    CompletedIsAt(V041, h3, age, o3, h4);
  }

  lemma Upgrades(service: Version, g: Db, age: int, order: seq<ObjectId>, h: Db) returns (next: seq<ObjectId>, k: Db)
    requires NotAhead(g) && Completes(service, g, age, order, h)
    requires service == V030 || service == V040 || (service == V021 && HasNoSessions(g))
    ensures NotAhead(h)
    ensures Completes(if service == V021 then V030 else if service == V030 then V040 else V041, h, age, next, k)
  {
    VersionNeverAhead(service, g, age, order, |PlanFor(service, g, age, order)|, h);
    CompletedRecords(service, g, age, order, h);
    next := AnyOrder(h.links.Keys);
    InstallsAndThenUpgrades(service, g, age, order, h, age, next);
    k := CompletesWhole(if service == V021 then V030 else if service == V030 then V040 else V041, h, age, next);
  }
}
