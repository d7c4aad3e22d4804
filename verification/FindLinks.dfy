/** The manager's search for links: the filter it builds, against what the query asks for. */
module FindLinks {
  import opened Wrappers

  datatype TimeBounds = TimeBounds(
    eq: Option<int>, gte: Option<int>, gt: Option<int>, lte: Option<int>, lt: Option<int>)

  datatype NameBounds = NameBounds(eq: Option<string>, contains: Option<string>)

  datatype Find = Find(
    username: Option<NameBounds>, orcid: Option<string>, created: Option<TimeBounds>, expires: Option<TimeBounds>)

  datatype Link = Link(username: string, orcid: string, createdAt: int, expiresAt: int)

  // ---- What a query asks for -------------------------------------------------------------

  predicate OccursAt(s: string, part: string, i: nat) {
    i + |part| <= |s| && s[i..i + |part|] == part
  }

  predicate Contains(s: string, part: string) {
    exists i | 0 <= i <= |s| :: OccursAt(s, part, i)
  }

  predicate InBounds(t: int, b: TimeBounds) {
    && (b.eq.Some? ==> t == b.eq.value)
    && (b.gte.Some? ==> t >= b.gte.value)
    && (b.gt.Some? ==> t > b.gt.value)
    && (b.lte.Some? ==> t <= b.lte.value)
    && (b.lt.Some? ==> t < b.lt.value)
  }

  predicate IsNamed(username: string, b: NameBounds) {
    && (b.eq.Some? ==> username == b.eq.value)
    && (b.contains.Some? ==> Contains(username, b.contains.value))
  }

  predicate Asks(find: Find, link: Link) {
    && (find.username.Some? ==> IsNamed(link.username, find.username.value))
    && (find.orcid.Some? ==> link.orcid == find.orcid.value)
    && (find.created.Some? ==> InBounds(link.createdAt, find.created.value))
    && (find.expires.Some? ==> InBounds(link.expiresAt, find.expires.value))
  }

  // ---- The filter ------------------------------------------------------------------------

  datatype Field = Username | OrcidId | CreatedAt | ExpiresAt

  datatype Condition =
    | IsText(text: string) | Eq(time: int) | Gt(time: int) | Gte(time: int) | Lt(time: int) | Lte(time: int)

  predicate TimeMeets(t: int, c: Condition) {
    match c
    case IsText(_) => false
    case Eq(v) => t == v
    case Gt(v) => t > v
    case Gte(v) => t >= v
    case Lt(v) => t < v
    case Lte(v) => t <= v
  }

  predicate TextMeets(s: string, c: Condition) {
    c.IsText? && c.text == s
  }

  /** What Mongo's find matches. */
  predicate Matches(filter: map<Field, Condition>, link: Link) {
    && (Username in filter ==> TextMeets(link.username, filter[Username]))
    && (OrcidId in filter ==> TextMeets(link.orcid, filter[OrcidId]))
    && (CreatedAt in filter ==> TimeMeets(link.createdAt, filter[CreatedAt]))
    && (ExpiresAt in filter ==> TimeMeets(link.expiresAt, filter[ExpiresAt]))
  }

  /** Of several bounds on one field only one is left in the filter. */
  function Remaining(b: TimeBounds): Option<Condition> {
    if b.lte.Some? then Some(Lte(b.lte.value))
    else if b.lt.Some? then Some(Lt(b.lt.value))
    else if b.gte.Some? then Some(Gte(b.gte.value))
    else if b.gt.Some? then Some(Gt(b.gt.value))
    else if b.eq.Some? then Some(Eq(b.eq.value))
    else None
  }

  function RemainingOf(b: Option<TimeBounds>): Option<Condition> {
    match b case None => None case Some(bounds) => Remaining(bounds)
  }

  function With(filter: map<Field, Condition>, field: Field, c: Option<Condition>): map<Field, Condition> {
    match c case None => filter case Some(condition) => filter[field := condition]
  }

  function FilterOf(find: Find): map<Field, Condition> {
    var name := match find.username
                case None => None
                case Some(b) => (match b.eq case None => None case Some(u) => Some(IsText(u)));
    var orcid := match find.orcid case None => None case Some(o) => Some(IsText(o));
    With(With(With(With(map[], Username, name), OrcidId, orcid), CreatedAt, RemainingOf(find.created)),
         ExpiresAt, RemainingOf(find.expires))
  }

  lemma Overwritten(filter: map<Field, Condition>, field: Field, kept: Option<Condition>, c: Condition)
    ensures With(filter, field, kept)[field := c] == With(filter, field, Some(c))
  {
  }

  class Search {
    var filter: map<Field, Condition>

    constructor ()
      ensures filter == map[]
    {
      filter := map[];
    }

    method AugmentWithTimeFilter(field: Field, possible: Option<TimeBounds>)
      modifies this
      ensures filter == With(old(filter), field, RemainingOf(possible))
    {
      if possible.None? { return; }
      var b := possible.value;
      ghost var before, kept: Option<Condition> := filter, None;
      if b.eq.Some? {
        Overwritten(before, field, kept, Eq(b.eq.value));
        filter := filter[field := Eq(b.eq.value)];
        kept := Some(Eq(b.eq.value));
      }
      assert filter == With(before, field, kept);
      if b.gt.Some? {
        Overwritten(before, field, kept, Gt(b.gt.value));
        filter := filter[field := Gt(b.gt.value)];
        kept := Some(Gt(b.gt.value));
      }
      assert filter == With(before, field, kept);
      if b.gte.Some? {
        Overwritten(before, field, kept, Gte(b.gte.value));
        filter := filter[field := Gte(b.gte.value)];
        kept := Some(Gte(b.gte.value));
      }
      assert filter == With(before, field, kept);
      if b.lt.Some? {
        Overwritten(before, field, kept, Lt(b.lt.value));
        filter := filter[field := Lt(b.lt.value)];
        kept := Some(Lt(b.lt.value));
      }
      assert filter == With(before, field, kept);
      if b.lte.Some? {
        Overwritten(before, field, kept, Lte(b.lte.value));
        filter := filter[field := Lte(b.lte.value)];
        kept := Some(Lte(b.lte.value));
      }
      assert filter == With(before, field, kept);
    }

    method BuildFilter(find: Find)
      requires filter == map[]
      modifies this
      ensures filter == FilterOf(find)
    {
      if find.username.Some? {
        if find.username.value.eq.Some? { filter := filter[Username := IsText(find.username.value.eq.value)]; }
      }
      if find.orcid.Some? { filter := filter[OrcidId := IsText(find.orcid.value)]; }
      AugmentWithTimeFilter(CreatedAt, find.created);
      AugmentWithTimeFilter(ExpiresAt, find.expires);
    }
  }

  function Selected(links: seq<Link>, filter: map<Field, Condition>): seq<Link> {
    if links == [] then []
    else
      var last := links[|links| - 1];
      Selected(links[..|links| - 1], filter) + if Matches(filter, last) then [last] else []
  }

  /** However many links match, the cursor is read for this many. */
  const READ_LIMIT := 100

  function FilterFor(find: Option<Find>): map<Field, Condition> {
    match find case None => map[] case Some(f) => FilterOf(f)
  }

  /** get_link_records: the first 100 links that match, in the order they are stored. */
  method GetLinkRecords(links: seq<Link>, filter: map<Field, Condition>) returns (found: seq<Link>)
    ensures found <= Selected(links, filter)
    ensures |found| == if |Selected(links, filter)| <= 100 then |Selected(links, filter)| else 100
  {
    found := [];
    for i := 0 to |links|
      invariant found == Selected(links[..i], filter) && |found| <= READ_LIMIT
    {
      SelectedGrows(links, filter, i);
      if |found| == READ_LIMIT { return; }
      assert links[..i + 1][..i] == links[..i];
      if Matches(filter, links[i]) { found := found + [links[i]]; }
    }
    assert links[..|links|] == links;
  }

  lemma {:induction false} SelectedGrows(links: seq<Link>, filter: map<Field, Condition>, i: nat)
    requires i <= |links|
    ensures Selected(links[..i], filter) <= Selected(links, filter)
  {
    if i < |links| {
      var most := links[..|links| - 1];
      SelectedGrows(most, filter, i);
      assert most[..i] == links[..i];
    } else {
      assert links[..i] == links;
    }
  }

  lemma {:induction false} SelectedMatch(links: seq<Link>, filter: map<Field, Condition>, link: Link)
    ensures link in Selected(links, filter) <==> link in links && Matches(filter, link)
  {
    if links != [] {
      SelectedMatch(links[..|links| - 1], filter, link);
      assert links == links[..|links| - 1] + [links[|links| - 1]];
    }
  }

  /**
   The links a search returns. One the query asks for is left out only when over 100 match; one it does not ask for is
   returned only when the filter is not exact.
   */
  method FindLinks(find: Option<Find>, links: seq<Link>) returns (found: seq<Link>)
    ensures found <= Selected(links, FilterFor(find))
    ensures |found| == if |Selected(links, FilterFor(find))| <= 100 then |Selected(links, FilterFor(find))| else 100
    ensures forall link | link in links && (find.Some? ==> Asks(find.value, link)) && link !in found ::
              |Selected(links, FilterFor(find))| > 100
    ensures find.None? || (IsNameExactIn(find.value) && IsExact(find.value.created) && IsExact(find.value.expires)) ==>
              forall link | link in found :: link in links && (find.Some? ==> Asks(find.value, link))
  {
    var search := new Search();
    if find.Some? { search.BuildFilter(find.value); }
    found := GetLinkRecords(links, search.filter);
    ghost var all := Selected(links, FilterFor(find));
    forall link ensures link in all <==> link in links && Matches(FilterFor(find), link) {
      SelectedMatch(links, FilterFor(find), link);
    }
    assert |found| == |all| ==> found == all;
    assert forall link | link in found :: link in all;
    if find.Some? {
      NeverMisses(find.value);
      ExactIff(find.value);
    }
  }

  // ---- What the filter gets right --------------------------------------------------------

  /** No link the query asks for is missed, although later bounds overwrite earlier ones. */
  lemma NeverMisses(find: Find)
    ensures forall link | Asks(find, link) :: Matches(FilterOf(find), link)
  {
  }

  /** Bounds the filter keeps: at most one, or two in one direction of which the one kept is the stricter. */
  predicate IsExactTime(b: TimeBounds) {
    if b.lte.Some? then b.eq.None? && b.gt.None? && b.gte.None? && (b.lt.Some? ==> b.lte.value < b.lt.value)
    else if b.lt.Some? then b.eq.None? && b.gt.None? && b.gte.None?
    else if b.gte.Some? then b.eq.None? && (b.gt.Some? ==> b.gt.value < b.gte.value)
    else b.gt.Some? ==> b.eq.None?
  }

  predicate IsExact(b: Option<TimeBounds>) {
    b.Some? ==> IsExactTime(b.value)
  }

  /** A part that every matching name contains anyway. */
  predicate IsNameExact(b: NameBounds) {
    b.contains.Some? ==> b.contains.value == "" || (b.eq.Some? && Contains(b.eq.value, b.contains.value))
  }

  predicate KeptTime(t: int, b: Option<TimeBounds>) {
    match RemainingOf(b) case None => true case Some(c) => TimeMeets(t, c)
  }

  predicate AskedTime(t: int, b: Option<TimeBounds>) {
    b.Some? ==> InBounds(t, b.value)
  }

  /** A time the filter keeps; one the query does not ask for, if there is one. */
  lemma TimeWitness(b: Option<TimeBounds>) returns (t: int)
    ensures KeptTime(t, b) && (AskedTime(t, b) ==> IsExact(b))
  {
    t := 0;
    if b.Some? && Remaining(b.value).Some? {
      var c := Remaining(b.value).value;
      t := c.time;
      if c.Lte? || c.Lt? {
        // Go below every lower bound, or stay at the limit if only an upper bound was lost.
        t := if b.value.lt.Some? && c.Lte? && b.value.gte.None? && b.value.gt.None? && b.value.eq.None? then c.time
             else Below(c.time, b.value);
      } else if c.Gte? || c.Gt? {
        t := if c.Gte? && b.value.gt.Some? && b.value.eq.None? then c.time else Above(c.time, b.value);
      }
    }
  }

  function Below(t: int, b: TimeBounds): int {
    var t1 := if b.eq.Some? && b.eq.value < t then b.eq.value else t;
    var t2 := if b.gt.Some? && b.gt.value < t1 then b.gt.value else t1;
    (if b.gte.Some? && b.gte.value < t2 then b.gte.value else t2) - 1
  }

  function Above(t: int, b: TimeBounds): int {
    (if b.eq.Some? && b.eq.value > t then b.eq.value else t) + 1
  }

  lemma ExactTimes(t: int, b: Option<TimeBounds>)
    requires IsExact(b) && KeptTime(t, b)
    ensures AskedTime(t, b)
  {
  }

  lemma NameWitness(b: Option<NameBounds>) returns (s: string)
    ensures b.Some? && b.value.eq.Some? ==> s == b.value.eq.value
    ensures b.Some? && IsNamed(s, b.value) ==> IsNameExact(b.value)
  {
    s := if b.Some? && b.value.eq.Some? then b.value.eq.value else "";
  }

  lemma ExactNames(s: string, b: NameBounds)
    requires IsNameExact(b) && (b.eq.Some? ==> s == b.eq.value)
    ensures IsNamed(s, b)
  {
    assert OccursAt(s, "", 0);
  }

  predicate KeptName(s: string, b: Option<NameBounds>) {
    b.Some? && b.value.eq.Some? ==> s == b.value.eq.value
  }

  lemma MatchesParts(find: Find, link: Link)
    ensures Matches(FilterOf(find), link) <==>
            && KeptName(link.username, find.username) && (find.orcid.Some? ==> link.orcid == find.orcid.value)
            && KeptTime(link.createdAt, find.created) && KeptTime(link.expiresAt, find.expires)
  {
  }

  predicate IsNameExactIn(find: Find) {
    find.username.Some? ==> IsNameExact(find.username.value)
  }

  lemma ExactMatch(find: Find, link: Link)
    requires IsNameExactIn(find) && IsExact(find.created) && IsExact(find.expires)
    requires Matches(FilterOf(find), link)
    ensures Asks(find, link)
  {
    MatchesParts(find, link);
    ExactTimes(link.createdAt, find.created);
    ExactTimes(link.expiresAt, find.expires);
    if find.username.Some? { ExactNames(link.username, find.username.value); }
  }

  /** The filter matches exactly what the query asks for in just these cases. */
  lemma ExactIff(find: Find)
    ensures (forall link :: Matches(FilterOf(find), link) <==> Asks(find, link)) <==>
            IsNameExactIn(find) && IsExact(find.created) && IsExact(find.expires)
  {
    var s := NameWitness(find.username);
    var t := TimeWitness(find.created);
    var u := TimeWitness(find.expires);
    var link := Link(s, if find.orcid.Some? then find.orcid.value else "", t, u);
    MatchesParts(find, link);
    NeverMisses(find);
    if IsNameExactIn(find) && IsExact(find.created) && IsExact(find.expires) {
      forall l: Link | Matches(FilterOf(find), l) ensures Asks(find, l) { ExactMatch(find, l); }
    }
  }
}
