/**
 Contributors: ORCID keeps one record per contributor and role, the service one contributor with
 all its roles. `to_orcid` flattens, `to_service` groups by credit name.
 */
module Contributors {
  import opened Wrappers
  import Orcid
  import opened Service

  // ---- To ORCID --------------------------------------------------------------------------

  function RecordsOf(path: Option<string>, name: string, roles: seq<string>): (records: seq<Orcid.Contributor>)
    ensures |records| == |roles|
  {
    seq(|roles|, i requires 0 <= i < |roles| => Orcid.Contributor(path, name, None, roles[i]))
  }

  function Flatten(cs: seq<Contributor>): seq<Orcid.Contributor> {
    if cs == [] then []
    else Flatten(cs[..|cs| - 1]) + RecordsOf(cs[|cs| - 1].orcidId, cs[|cs| - 1].name, cs[|cs| - 1].roles)
  }

  method TransformContributorSelf(c: SelfContributor) returns (records: seq<Orcid.Contributor>)
    ensures records == RecordsOf(Some(c.orcidId), c.name, c.roles)
  {
    records := [];
    for i := 0 to |c.roles|
      invariant records == RecordsOf(Some(c.orcidId), c.name, c.roles[..i])
    {
      records := records + [Orcid.Contributor(Some(c.orcidId), c.name, None, c.roles[i])];
    }
    assert c.roles[..|c.roles|] == c.roles;
  }

  method TransformContributor(c: Contributor) returns (records: seq<Orcid.Contributor>)
    ensures records == RecordsOf(c.orcidId, c.name, c.roles)
  {
    records := [];
    for i := 0 to |c.roles|
      invariant records == RecordsOf(c.orcidId, c.name, c.roles[..i])
    {
      records := records + [Orcid.Contributor(c.orcidId, c.name, None, c.roles[i])];
    }
    assert c.roles[..|c.roles|] == c.roles;
  }

  method TransformContributors(cs: seq<Contributor>) returns (records: seq<Orcid.Contributor>)
    ensures records == Flatten(cs)
  {
    records := [];
    for i := 0 to |cs|
      invariant records == Flatten(cs[..i])
    {
      var more := TransformContributor(cs[i]);
      assert cs[..i + 1][..i] == cs[..i];
      records := records + more;
    }
    assert cs[..|cs|] == cs;
  }

  // ---- To the service: what the group-by means -------------------------------------------

  /** A record of somebody else than the profile's owner, under the given credit name. */
  predicate IsOther(r: Orcid.Contributor, self: string, name: string) {
    r.path != Some(self) && r.creditName == name
  }

  function SelfRoles(records: seq<Orcid.Contributor>, self: string): seq<string> {
    if records == [] then []
    else
      var last := records[|records| - 1];
      SelfRoles(records[..|records| - 1], self) + if last.path == Some(self) then [last.role] else []
  }

  function OtherRoles(records: seq<Orcid.Contributor>, self: string, name: string): seq<string> {
    if records == [] then []
    else
      var last := records[|records| - 1];
      OtherRoles(records[..|records| - 1], self, name) + if IsOther(last, self, name) then [last.role] else []
  }

  /** Where a name is first credited to somebody else; the number of records if nowhere. */
  function FirstOf(records: seq<Orcid.Contributor>, self: string, name: string): (k: nat)
    ensures k <= |records| && (k < |records| ==> IsOther(records[k], self, name))
    ensures forall j | 0 <= j < k :: !IsOther(records[j], self, name)
  {
    if records == [] then 0
    else
      var n := |records| - 1;
      var k := FirstOf(records[..n], self, name);
      if k < n || IsOther(records[n], self, name) then k else n + 1
  }

  /** A name's contributor: the first record's ORCID id, and the roles of all its records in order. */
  ghost predicate Gathers(records: seq<Orcid.Contributor>, self: string, c: Contributor) {
    var k := FirstOf(records, self, c.name);
    k < |records| && c.orcidId == records[k].path && c.roles == OtherRoles(records, self, c.name)
  }

  /** Everybody credited other than the profile's owner is among the contributors. */
  ghost predicate Covers(records: seq<Orcid.Contributor>, self: string, cs: seq<Contributor>) {
    forall k | 0 <= k < |records| && records[k].path != Some(self) ::
      exists i :: 0 <= i < |cs| && cs[i].name == records[k].creditName
  }

  /** The contributors other than the profile's owner, each once, in the order they are first credited. */
  ghost predicate IsGrouping(records: seq<Orcid.Contributor>, self: string, cs: seq<Contributor>) {
    && (forall i | 0 <= i < |cs| :: Gathers(records, self, cs[i]))
    && (forall i, j | 0 <= i < j < |cs| :: FirstOf(records, self, cs[i].name) < FirstOf(records, self, cs[j].name))
    && Covers(records, self, cs)
  }

  // ---- The group-by ----------------------------------------------------------------------

  function IndexOf(cs: seq<Contributor>, name: string): (i: nat)
    ensures i <= |cs| && (i < |cs| ==> cs[i].name == name)
    ensures forall j | 0 <= j < i :: cs[j].name != name
  {
    if cs == [] then 0 else if cs[0].name == name then 0 else 1 + IndexOf(cs[1..], name)
  }

  /** The contributors seen so far, and one more record. */
  function Absorb(cs: seq<Contributor>, r: Orcid.Contributor, self: string): seq<Contributor> {
    if r.path == Some(self) then cs
    else
      var i := IndexOf(cs, r.creditName);
      if i < |cs| then cs[i := cs[i].(roles := cs[i].roles + [r.role])]
      else cs + [Contributor(r.path, r.creditName, [r.role])]
  }

  function Group(records: seq<Orcid.Contributor>, self: string): seq<Contributor> {
    if records == [] then [] else Absorb(Group(records[..|records| - 1], self), records[|records| - 1], self)
  }

  method CollectSelfRoles(records: seq<Orcid.Contributor>, self: string) returns (roles: seq<string>)
    ensures roles == SelfRoles(records, self)
  {
    roles := [];
    for i := 0 to |records|
      invariant roles == SelfRoles(records[..i], self)
    {
      assert records[..i + 1][..i] == records[..i];
      if records[i].path == Some(self) { roles := roles + [records[i].role]; }
    }
    assert records[..|records|] == records;
  }

  /** A dictionary that remembers the order its keys were added in, as the list of its values. */
  function Values(keys: seq<string>, dict: map<string, Contributor>): seq<Contributor>
    requires forall i | 0 <= i < |keys| :: keys[i] in dict
  {
    seq(|keys|, i requires 0 <= i < |keys| => dict[keys[i]])
  }

  ghost predicate IsDict(keys: seq<string>, dict: map<string, Contributor>) {
    && (forall i | 0 <= i < |keys| :: keys[i] in dict && dict[keys[i]].name == keys[i])
    && (forall i, j | 0 <= i < j < |keys| :: keys[i] != keys[j])
    && (forall name | name in dict :: name in keys)
  }

  lemma DictFinds(keys: seq<string>, dict: map<string, Contributor>, name: string)
    requires IsDict(keys, dict)
    ensures var k := IndexOf(Values(keys, dict), name);
            if name in dict then k < |keys| && keys[k] == name else k == |keys|
  {
    if name in dict {
      var j :| 0 <= j < |keys| && keys[j] == name;
      assert Values(keys, dict)[j].name == name;
    }
  }

  lemma DictAdds(keys: seq<string>, dict: map<string, Contributor>, c: Contributor)
    requires IsDict(keys, dict) && c.name !in dict
    ensures IsDict(keys + [c.name], dict[c.name := c])
    ensures Values(keys + [c.name], dict[c.name := c]) == Values(keys, dict) + [c]
  {
  }

  lemma DictReplaces(keys: seq<string>, dict: map<string, Contributor>, c: Contributor, k: nat)
    requires IsDict(keys, dict) && k < |keys| && keys[k] == c.name
    ensures IsDict(keys, dict[c.name := c])
    ensures Values(keys, dict[c.name := c]) == Values(keys, dict)[k := c]
  {
  }

  method GroupContributors(records: seq<Orcid.Contributor>, self: string) returns (cs: seq<Contributor>)
    ensures cs == Group(records, self)
    ensures IsGrouping(records, self, cs)
  {
    var keys: seq<string>, dict: map<string, Contributor> := [], map[];
    for i := 0 to |records|
      invariant IsDict(keys, dict) && Values(keys, dict) == Group(records[..i], self)
    {
      var r := records[i];
      assert records[..i + 1][..i] == records[..i];
      if r.path == Some(self) { continue; }
      DictFinds(keys, dict, r.creditName);
      if r.creditName !in dict {
        var c := Contributor(r.path, r.creditName, [r.role]);
        DictAdds(keys, dict, c);
        keys, dict := keys + [r.creditName], dict[r.creditName := c];
      } else {
        var c := dict[r.creditName];
        c := c.(roles := c.roles + [r.role]);
        DictReplaces(keys, dict, c, IndexOf(Values(keys, dict), r.creditName));
        dict := dict[r.creditName := c];
      }
    }
    assert records[..|records|] == records;
    cs := Values(keys, dict);
    GroupIsGrouping(records, self);
  }

  lemma FirstOfExtended(records: seq<Orcid.Contributor>, self: string, name: string)
    requires |records| > 0
    ensures var n := |records| - 1; var k := FirstOf(records[..n], self, name);
            FirstOf(records, self, name) == if k < n || IsOther(records[n], self, name) then k else n + 1
  {
  }

  lemma GathersLater(records: seq<Orcid.Contributor>, self: string, c: Contributor)
    requires |records| > 0 && Gathers(records[..|records| - 1], self, c)
    ensures var last := records[|records| - 1];
            Gathers(records, self, if IsOther(last, self, c.name) then c.(roles := c.roles + [last.role]) else c)
  {
    FirstOfExtended(records, self, c.name);
  }

  lemma OneOfEach(records: seq<Orcid.Contributor>, self: string, cs: seq<Contributor>, i: nat, j: nat)
    requires IsGrouping(records, self, cs) && i < |cs|
    ensures j < |cs| && cs[i].name == cs[j].name ==> i == j
  {
  }

  /** Each contributor after one more record. */
  lemma AbsorbAt(cs: seq<Contributor>, r: Orcid.Contributor, self: string, i: nat)
    requires i < |cs| && forall j | 0 <= j < |cs| && cs[j].name == cs[i].name :: j == i
    ensures Absorb(cs, r, self)[i] ==
            if IsOther(r, self, cs[i].name) then cs[i].(roles := cs[i].roles + [r.role]) else cs[i]
  {
  }

  lemma AbsorbGathers(records: seq<Orcid.Contributor>, self: string, prior: seq<Contributor>, i: nat)
    requires |records| > 0 && IsGrouping(records[..|records| - 1], self, prior)
    requires i < |Absorb(prior, records[|records| - 1], self)|
    ensures Gathers(records, self, Absorb(prior, records[|records| - 1], self)[i])
  {
    if i < |prior| {
      AbsorbAt(prior, records[|records| - 1], self, i) by {
        forall j | 0 <= j < |prior| && prior[j].name == prior[i].name ensures j == i {
          OneOfEach(records[..|records| - 1], self, prior, i, j);
        }
      }
      GathersLater(records, self, prior[i]);
    } else {
      NewGathers(records, self, prior);
    }
  }

  lemma NewGathers(records: seq<Orcid.Contributor>, self: string, prior: seq<Contributor>)
    requires |records| > 0 && Covers(records[..|records| - 1], self, prior)
    requires var r := records[|records| - 1];
             r.path != Some(self) && forall i | 0 <= i < |prior| :: prior[i].name != r.creditName
    ensures var r := records[|records| - 1]; Gathers(records, self, Contributor(r.path, r.creditName, [r.role]))
  {
    var n := |records| - 1;
    FirstOfExtended(records, self, records[n].creditName);
    Uncredited(records[..n], self, prior, records[n].creditName);
  }

  lemma AbsorbOrders(records: seq<Orcid.Contributor>, self: string, prior: seq<Contributor>, i: nat, j: nat)
    requires |records| > 0 && IsGrouping(records[..|records| - 1], self, prior)
    requires i < j < |Absorb(prior, records[|records| - 1], self)|
    ensures var cs := Absorb(prior, records[|records| - 1], self);
            FirstOf(records, self, cs[i].name) < FirstOf(records, self, cs[j].name)
  {
    var n := |records| - 1;
    var r := records[n];
    assert Gathers(records[..n], self, prior[i]);
    FirstOfExtended(records, self, prior[i].name);
    if j < |prior| {
      assert Gathers(records[..n], self, prior[j]);
      FirstOfExtended(records, self, prior[j].name);
    } else {
      Uncredited(records[..n], self, prior, r.creditName);
      FirstOfExtended(records, self, r.creditName);
    }
  }

  lemma AbsorbCovers(records: seq<Orcid.Contributor>, self: string, prior: seq<Contributor>)
    requires |records| > 0 && Covers(records[..|records| - 1], self, prior)
    ensures Covers(records, self, Absorb(prior, records[|records| - 1], self))
  {
    var n := |records| - 1;
    var r, cs := records[n], Absorb(prior, records[n], self);
    forall k | 0 <= k < |records| && records[k].path != Some(self)
      ensures exists i :: 0 <= i < |cs| && cs[i].name == records[k].creditName {
      if k < n {
        assert records[..n][k] == records[k];
        var i :| 0 <= i < |prior| && prior[i].name == records[k].creditName;
        assert cs[i].name == records[k].creditName;
      } else {
        assert cs[IndexOf(prior, r.creditName)].name == r.creditName;
      }
    }
  }

  lemma {:induction false} GroupIsGrouping(records: seq<Orcid.Contributor>, self: string)
    ensures IsGrouping(records, self, Group(records, self))
  {
    if records != [] {
      var n := |records| - 1;
      var prior, cs := Group(records[..n], self), Group(records, self);
      GroupIsGrouping(records[..n], self);
      forall i | 0 <= i < |cs| ensures Gathers(records, self, cs[i]) {
        AbsorbGathers(records, self, prior, i);
      }
      forall i, j | 0 <= i < j < |cs| ensures FirstOf(records, self, cs[i].name) < FirstOf(records, self, cs[j].name) {
        AbsorbOrders(records, self, prior, i, j);
      }
      AbsorbCovers(records, self, prior);
    }
  }

  /** A name that no contributor has is credited nowhere. */
  lemma {:induction false} Uncredited(records: seq<Orcid.Contributor>, self: string, cs: seq<Contributor>, name: string)
    requires Covers(records, self, cs) && forall i | 0 <= i < |cs| :: cs[i].name != name
    ensures OtherRoles(records, self, name) == [] && FirstOf(records, self, name) == |records|
  {
    if records != [] {
      var n := |records| - 1;
      forall k | 0 <= k < n && records[..n][k].path != Some(self)
        ensures exists i :: 0 <= i < |cs| && cs[i].name == records[..n][k].creditName {
        assert records[..n][k] == records[k];
      }
      Uncredited(records[..n], self, cs, name);
    }
  }

  // ---- The grouping is the only one, and loses nothing -----------------------------------

  lemma {:induction false} SameIncreasing(s: seq<nat>, t: seq<nat>)
    requires forall i, j | 0 <= i < j < |s| :: s[i] < s[j]
    requires forall i, j | 0 <= i < j < |t| :: t[i] < t[j]
    requires forall x :: x in s <==> x in t
    ensures s == t
  {
    if s != [] { assert s[0] in t; }
    if t != [] { assert t[0] in s; }
    if s != [] && t != [] {
      var m, n := |s| - 1, |t| - 1;
      assert s[m] in t && t[n] in s;
      assert s[m] == t[n];
      forall x ensures x in s[..m] <==> x in t[..n] {
        if x in s[..m] { assert x in s && x != s[m]; }
        if x in t[..n] { assert x in t && x != t[n]; }
      }
      SameIncreasing(s[..m], t[..n]);
      assert s == s[..m] + [s[m]] && t == t[..n] + [t[n]];
    }
  }

  function Firsts(records: seq<Orcid.Contributor>, self: string, cs: seq<Contributor>): (s: seq<nat>)
    ensures |s| == |cs|
  {
    seq(|cs|, i requires 0 <= i < |cs| => FirstOf(records, self, cs[i].name))
  }

  lemma FirstsAgree(records: seq<Orcid.Contributor>, self: string, a: seq<Contributor>, b: seq<Contributor>, x: nat)
    requires IsGrouping(records, self, a) && IsGrouping(records, self, b) && x in Firsts(records, self, a)
    ensures x in Firsts(records, self, b)
  {
    var i :| 0 <= i < |a| && Firsts(records, self, a)[i] == x;
    assert Gathers(records, self, a[i]);
    assert records[x].path != Some(self) && records[x].creditName == a[i].name;
    var j :| 0 <= j < |b| && b[j].name == records[x].creditName;
    assert Firsts(records, self, b)[j] == x;
  }

  /** What a grouping must be leaves no choice. */
  lemma GroupingIsUnique(records: seq<Orcid.Contributor>, self: string, a: seq<Contributor>, b: seq<Contributor>)
    requires IsGrouping(records, self, a) && IsGrouping(records, self, b)
    ensures a == b
  {
    var s, t := Firsts(records, self, a), Firsts(records, self, b);
    forall x: nat ensures x in s <==> x in t {
      if x in s { FirstsAgree(records, self, a, b, x); }
      if x in t { FirstsAgree(records, self, b, a, x); }
    }
    SameIncreasing(s, t);
    forall i | 0 <= i < |a| ensures a[i] == b[i] {
      assert Gathers(records, self, a[i]) && Gathers(records, self, b[i]);
      assert s[i] == t[i];
    }
  }

  function RoleCount(cs: seq<Contributor>): nat {
    if cs == [] then 0 else RoleCount(cs[..|cs| - 1]) + |cs[|cs| - 1].roles|
  }

  lemma {:induction false} RoleCountBumped(cs: seq<Contributor>, i: nat, role: string)
    requires i < |cs|
    ensures RoleCount(cs[i := cs[i].(roles := cs[i].roles + [role])]) == RoleCount(cs) + 1
  {
    var n := |cs| - 1;
    var ds := cs[i := cs[i].(roles := cs[i].roles + [role])];
    if i < n {
      RoleCountBumped(cs[..n], i, role);
      assert ds[..n] == cs[..n][i := cs[i].(roles := cs[i].roles + [role])];
    } else {
      assert ds[..n] == cs[..n];
    }
  }

  /** Every record's role is either a self role or in exactly one contributor. */
  lemma {:induction false} RolesAreConserved(records: seq<Orcid.Contributor>, self: string)
    ensures |SelfRoles(records, self)| + RoleCount(Group(records, self)) == |records|
  {
    if records != [] {
      var n := |records| - 1;
      var prior, r := Group(records[..n], self), records[n];
      RolesAreConserved(records[..n], self);
      if r.path != Some(self) {
        var i := IndexOf(prior, r.creditName);
        if i < |prior| {
          RoleCountBumped(prior, i, r.role);
        } else {
          assert (prior + [Contributor(r.path, r.creditName, [r.role])])[..|prior|] == prior;
        }
      }
    }
  }

  // ---- Flattening and grouping again -----------------------------------------------------

  /** What a list of other contributors must be for ORCID to give it back. */
  ghost predicate Distinguishable(cs: seq<Contributor>, self: string) {
    && (forall i | 0 <= i < |cs| :: |cs[i].roles| > 0 && cs[i].orcidId != Some(self))
    && (forall i, j | 0 <= i < j < |cs| :: cs[i].name != cs[j].name)
  }

  lemma {:induction false} GroupsAreDistinguishable(records: seq<Orcid.Contributor>, self: string)
    ensures Distinguishable(Group(records, self), self)
  {
    if records != [] {
      GroupsAreDistinguishable(records[..|records| - 1], self);
    }
  }

  lemma GroupAppend(records: seq<Orcid.Contributor>, r: Orcid.Contributor, self: string)
    ensures Group(records + [r], self) == Absorb(Group(records, self), r, self)
  {
    assert (records + [r])[..|records|] == records;
  }

  ghost predicate Unnamed(cs: seq<Contributor>, name: string) {
    forall i | 0 <= i < |cs| :: cs[i].name != name
  }

  lemma AbsorbNew(cs: seq<Contributor>, r: Orcid.Contributor, self: string)
    requires Unnamed(cs, r.creditName) && r.path != Some(self)
    ensures Absorb(cs, r, self) == cs + [Contributor(r.path, r.creditName, [r.role])]
  {
    assert IndexOf(cs, r.creditName) == |cs|;
  }

  lemma AbsorbAgain(cs: seq<Contributor>, c: Contributor, r: Orcid.Contributor, self: string)
    requires Unnamed(cs, c.name) && r.creditName == c.name && r.path != Some(self)
    ensures Absorb(cs + [c], r, self) == cs + [c.(roles := c.roles + [r.role])]
  {
    assert (cs + [c])[|cs|].name == c.name;
    forall i | 0 <= i < |cs| ensures (cs + [c])[i].name != c.name {}
  }

  lemma {:induction false} AbsorbRecords(records: seq<Orcid.Contributor>, self: string, c: Contributor)
    requires |c.roles| > 0 && c.orcidId != Some(self) && Unnamed(Group(records, self), c.name)
    ensures Group(records + RecordsOf(c.orcidId, c.name, c.roles), self) == Group(records, self) + [c]
    decreases |c.roles|
  {
    var n := |c.roles| - 1;
    var most := Contributor(c.orcidId, c.name, c.roles[..n]);
    var r := Orcid.Contributor(c.orcidId, c.name, None, c.roles[n]);
    var some := records + RecordsOf(c.orcidId, c.name, most.roles);
    assert records + RecordsOf(c.orcidId, c.name, c.roles) == some + [r];
    GroupAppend(some, r, self);
    assert c.roles == most.roles + [c.roles[n]];
    if n == 0 {
      assert some == records;
      AbsorbNew(Group(records, self), r, self);
    } else {
      AbsorbRecords(records, self, most);
      AbsorbAgain(Group(records, self), most, r, self);
    }
  }

  /** Records of the owner: no contributor of their own, and their roles in order. */
  lemma {:induction false} OwnRecords(self: string, name: string, roles: seq<string>)
    ensures Group(RecordsOf(Some(self), name, roles), self) == []
    ensures SelfRoles(RecordsOf(Some(self), name, roles), self) == roles
  {
    if roles != [] {
      var n := |roles| - 1;
      OwnRecords(self, name, roles[..n]);
      assert RecordsOf(Some(self), name, roles)[..n] == RecordsOf(Some(self), name, roles[..n]);
    }
  }

  lemma {:induction false} SelfRolesAppend(a: seq<Orcid.Contributor>, b: seq<Orcid.Contributor>, self: string)
    ensures SelfRoles(a + b, self) == SelfRoles(a, self) + SelfRoles(b, self)
  {
    if b == [] {
      assert a + b == a;
    } else {
      var n := |b| - 1;
      SelfRolesAppend(a, b[..n], self);
      assert (a + b)[..|a| + n] == a + b[..n];
    }
  }

  lemma {:induction false} NoSelfRoles(records: seq<Orcid.Contributor>, self: string)
    requires forall k | 0 <= k < |records| :: records[k].path != Some(self)
    ensures SelfRoles(records, self) == []
  {
    if records != [] { NoSelfRoles(records[..|records| - 1], self); }
  }

  lemma {:induction false} FlattenedPaths(cs: seq<Contributor>, self: string)
    requires forall i | 0 <= i < |cs| :: cs[i].orcidId != Some(self)
    ensures forall k | 0 <= k < |Flatten(cs)| :: Flatten(cs)[k].path != Some(self)
  {
    if cs != [] { FlattenedPaths(cs[..|cs| - 1], self); }
  }

  lemma GroupLast(own: seq<Orcid.Contributor>, cs: seq<Contributor>, self: string)
    requires |cs| > 0 && |cs[|cs| - 1].roles| > 0 && cs[|cs| - 1].orcidId != Some(self)
    requires Unnamed(Group(own + Flatten(cs[..|cs| - 1]), self), cs[|cs| - 1].name)
    ensures Group(own + Flatten(cs), self) == Group(own + Flatten(cs[..|cs| - 1]), self) + [cs[|cs| - 1]]
  {
    var c := cs[|cs| - 1];
    var first, more := Flatten(cs[..|cs| - 1]), RecordsOf(c.orcidId, c.name, c.roles);
    assert own + (first + more) == (own + first) + more;
    AbsorbRecords(own + first, self, c);
  }

  lemma {:induction false} GroupFlattened(own: seq<Orcid.Contributor>, cs: seq<Contributor>, self: string)
    requires Group(own, self) == [] && Distinguishable(cs, self)
    ensures Group(own + Flatten(cs), self) == cs
  {
    if cs == [] {
      assert own + Flatten(cs) == own;
    } else {
      var n := |cs| - 1;
      GroupFlattened(own, cs[..n], self);
      GroupLast(own, cs, self);
      assert cs == cs[..n] + [cs[n]];
    }
  }

  /**
   Contributors sent to ORCID come back as they were exactly when the others have different names, a role each, and
   none of them the owner's ORCID id.
   */
  lemma ContributorsRoundTripIff(c: SelfContributor, cs: seq<Contributor>)
    ensures
      var records := RecordsOf(Some(c.orcidId), c.name, c.roles) + Flatten(cs);
      SelfRoles(records, c.orcidId) == c.roles && Group(records, c.orcidId) == cs <==> Distinguishable(cs, c.orcidId)
  {
    var own := RecordsOf(Some(c.orcidId), c.name, c.roles);
    OwnRecords(c.orcidId, c.name, c.roles);
    GroupsAreDistinguishable(own + Flatten(cs), c.orcidId);
    if Distinguishable(cs, c.orcidId) {
      GroupFlattened(own, cs, c.orcidId);
      SelfRolesAppend(own, Flatten(cs), c.orcidId);
      FlattenedPaths(cs, c.orcidId);
      NoSelfRoles(Flatten(cs), c.orcidId);
    }
  }
}
