/**
 Extraction of a type and all it refers to from an OpenAPI document.

 The extraction follows every reference with no record of where it has been, so on a cycle it recurses until Python's
 stack limit: `depth` is what is left of the stack.
 */
module SchemaExtraction {
  import opened Wrappers
  import opened Strings

  /** A JSON array or object of schemas, if the key is there. */
  datatype Children = Absent | Present(schemas: seq<Schema>)

  datatype Schema = Schema(
    ref: Option<string>, kind: Option<string>,
    properties: Children, items: Option<Schema>, allOf: Children, oneOf: Children)

  datatype Error = KeyError | IndexError | RecursionLimit

  type Components = map<string, Schema>

  /** ref_type_name: the last part of the path, which needs a slash. */
  function RefTypeName(ref: string): Result<string, Error> {
    var parts := Split(ref, '/');
    if |parts| == 1 then Err(IndexError) else Ok(parts[|parts| - 1])
  }

  /** What a reference names: what follows its last slash. */
  ghost predicate Names(ref: string, name: string) {
    '/' !in name && exists path :: ref == path + "/" + name
  }

  lemma RefTypeNameIff(ref: string, name: string)
    ensures RefTypeName(ref) == Ok(name) <==> Names(ref, name)
    ensures RefTypeName(ref) == Err(IndexError) <==> '/' !in ref
  {
    if '/' in ref {
      var path, last := SplitAtLast(ref, '/');
      SplitSuffix(path, last, '/');
    } else {
      SplitPrefix(ref, "", '/');
    }
    if Names(ref, name) {
      var path :| ref == path + "/" + name;
      assert ref[|path|] == '/';
      SplitSuffix(path, name, '/');
    }
  }

  /** The schemas inside one without a reference, by its first keyword. */
  function Parts(s: Schema): (r: Result<seq<Schema>, Error>)
    ensures r.Ok? ==> forall i | 0 <= i < |r.value| :: r.value[i] < s
  {
    if s.kind.Some? then
      if s.kind.value == "object" then
        if s.properties.Absent? then Err(KeyError) else Ok(s.properties.schemas)
      else if s.kind.value == "array" then
        if s.items.None? then Err(KeyError) else Ok([s.items.value])
      else Ok([])
    else if s.allOf.Present? then Ok(s.allOf.schemas)
    else if s.oneOf.Present? then Ok(s.oneOf.schemas)
    else Ok([])
  }

  // ---- The extraction as a function of the stack that is left ----------------------------

  function Add(cs: Components, name: string, depth: nat): (r: Result<set<string>, Error>)
    ensures r.Ok? ==> r.value <= cs.Keys
    decreases depth, 0
  {
    if depth == 0 then Err(RecursionLimit)
    else if name !in cs then Err(KeyError)
    else
      match Evaluate(cs, cs[name], depth - 1)
      case Err(e) => Err(e)
      case Ok(names) => Ok({name} + names)
  }

  function Evaluate(cs: Components, s: Schema, depth: nat): (r: Result<set<string>, Error>)
    ensures r.Ok? ==> r.value <= cs.Keys
    decreases depth, 0
  {
    if depth == 0 then Err(RecursionLimit)
    else if s.ref.Some? then
      match RefTypeName(s.ref.value)
      case Err(e) => Err(e)
      case Ok(name) => Add(cs, name, depth - 1)
    else
      match Parts(s)
      case Err(e) => Err(e)
      case Ok(parts) => EvaluateAll(cs, parts, depth - 1)
  }

  function EvaluateAll(cs: Components, parts: seq<Schema>, depth: nat): (r: Result<set<string>, Error>)
    ensures r.Ok? ==> r.value <= cs.Keys
    decreases depth, 1 + |parts|
  {
    if parts == [] then Ok({})
    else
      match EvaluateAll(cs, parts[..|parts| - 1], depth)
      case Err(e) => Err(e)
      case Ok(names) =>
        match Evaluate(cs, parts[|parts| - 1], depth)
        case Err(e) => Err(e)
        case Ok(more) => Ok(names + more)
  }

  // ---- The extraction as it runs ---------------------------------------------------------

  function Bound(cs: Components, names: set<string>): Components
    requires names <= cs.Keys
  {
    map name | name in names :: cs[name]
  }

  lemma BoundMore(cs: Components, schemas: Components, names: set<string>, more: set<string>)
    requires names <= cs.Keys && more <= cs.Keys
    ensures schemas + Bound(cs, names) + Bound(cs, more) == schemas + Bound(cs, names + more)
  {
  }

  class Extractor {
    const components: Components
    var schemas: Components

    constructor (components: Components)
      ensures this.components == components && schemas == map[]
    {
      this.components := components;
      schemas := map[];
    }

    method EvaluateSchema(s: Schema, depth: nat) returns (r: Result<(), Error>)
      modifies this`schemas
      ensures r.Ok? <==> Evaluate(components, s, depth).Ok?
      ensures r.Ok? ==> schemas == old(schemas) + Bound(components, Evaluate(components, s, depth).value)
      ensures r.Err? ==> Evaluate(components, s, depth) == Err(r.error)
      ensures r.Ok? ==> WellFormed(s)
      ensures r.Ok? ==> AddsReachable(components, s, old(schemas), schemas)
      decreases depth, 0
    {
      if Evaluate(components, s, depth).Ok? {
        EvaluateCollects(components, s, depth);
        EvaluatedIsWellFormed(components, s, depth);
      }
      if depth == 0 { return Err(RecursionLimit); }
      if s.ref.Some? {
        var name := RefTypeName(s.ref.value);
        if name.Err? { return Err(name.error); }
        r := AddSchema(name.value, depth - 1);
      } else if s.kind.Some? {
        if s.kind.value == "object" {
          if s.properties.Absent? { return Err(KeyError); }
          r := EvaluateEach(s.properties.schemas, depth - 1);
        } else if s.kind.value == "array" {
          if s.items.None? { return Err(KeyError); }
          r := EvaluateEach([s.items.value], depth - 1);
        } else {
          assert schemas == schemas + Bound(components, {});
          r := Ok(());
        }
      } else if s.allOf.Present? {
        r := EvaluateEach(s.allOf.schemas, depth - 1);
      } else if s.oneOf.Present? {
        r := EvaluateEach(s.oneOf.schemas, depth - 1);
      } else {
        assert schemas == schemas + Bound(components, {});
        r := Ok(());
      }
    }

    /** The loop over the schemas inside one. */
    method EvaluateEach(parts: seq<Schema>, depth: nat) returns (r: Result<(), Error>)
      modifies this`schemas
      ensures r.Ok? <==> EvaluateAll(components, parts, depth).Ok?
      ensures r.Ok? ==> schemas == old(schemas) + Bound(components, EvaluateAll(components, parts, depth).value)
      ensures r.Err? ==> EvaluateAll(components, parts, depth) == Err(r.error)
      decreases depth, 1
    {
      ghost var names: set<string> := {};
      for i := 0 to |parts|
        invariant EvaluateAll(components, parts[..i], depth) == Ok(names)
        invariant schemas == old(schemas) + Bound(components, names)
      {
        assert parts[..i + 1][..i] == parts[..i];
        r := EvaluateSchema(parts[i], depth);
        if r.Err? {
          FailsOnward(components, parts, i + 1, depth);
          return;
        }
        BoundMore(components, old(schemas), names, Evaluate(components, parts[i], depth).value);
        names := names + Evaluate(components, parts[i], depth).value;
      }
      assert parts[..|parts|] == parts;
      r := Ok(());
    }

    method AddSchema(name: string, depth: nat) returns (r: Result<(), Error>)
      modifies this`schemas
      ensures r.Ok? <==> Add(components, name, depth).Ok?
      ensures r.Ok? ==> schemas == old(schemas) + Bound(components, Add(components, name, depth).value)
      ensures r.Err? ==> Add(components, name, depth) == Err(r.error)
      ensures r.Ok? ==> forall n :: n in schemas <==> n in old(schemas) || Reachable(components, name, n)
      decreases depth, 0
    {
      if Add(components, name, depth).Ok? { AddCollects(components, name, depth); }
      if depth == 0 { return Err(RecursionLimit); }
      if name !in components { return Err(KeyError); }
      schemas := schemas[name := components[name]];
      r := EvaluateSchema(schemas[name], depth - 1);
    }
  }

  ghost predicate AddsReachable(cs: Components, s: Schema, before: Components, after: Components) {
    forall n :: n in after <==> n in before || FromSchema(cs, s, n)
  }

  lemma {:induction false} FailsOnward(cs: Components, parts: seq<Schema>, k: nat, depth: nat)
    requires k <= |parts| && EvaluateAll(cs, parts[..k], depth).Err?
    ensures EvaluateAll(cs, parts, depth) == EvaluateAll(cs, parts[..k], depth)
    decreases |parts|
  {
    if k < |parts| {
      var most := parts[..|parts| - 1];
      assert most[..k] == parts[..k];
      FailsOnward(cs, most, k, depth);
    } else {
      assert parts[..k] == parts;
    }
  }

  // ---- What an extraction is about -------------------------------------------------------

  /** t is s or lies inside it, within the same component and where the keywords of s make the script look. */
  ghost predicate Inside(s: Schema, t: Schema)
    decreases s, 1
  {
    || t == s
    || (s.ref.None? &&
        if s.kind == Some("object") then s.properties.Present? && InsideAny(s, s.properties.schemas, t)
        else if s.kind == Some("array") then s.items.Some? && Inside(s.items.value, t)
        else if s.kind.Some? then false
        else if s.allOf.Present? then InsideAny(s, s.allOf.schemas, t)
        else s.oneOf.Present? && InsideAny(s, s.oneOf.schemas, t))
  }

  ghost predicate InsideAny(s: Schema, parts: seq<Schema>, t: Schema)
    requires forall i | 0 <= i < |parts| :: parts[i] < s
    decreases s, 0
  {
    exists i :: 0 <= i < |parts| && Inside(parts[i], t)
  }

  /** The names a schema refers to without going through another component. */
  ghost predicate RefersTo(s: Schema, name: string) {
    exists t :: Inside(s, t) && t.ref.Some? && Names(t.ref.value, name)
  }

  /** What is wrong with a schema by itself: a reference without a slash, or a keyword that is missing. */
  predicate Faulty(t: Schema, e: Error) {
    match e
    case IndexError => t.ref.Some? && '/' !in t.ref.value
    case KeyError =>
      t.ref.None? && ((t.kind == Some("object") && t.properties.Absent?) || (t.kind == Some("array") && t.items.None?))
    case RecursionLimit => false
  }

  ghost predicate Malformed(s: Schema, e: Error) {
    exists t :: Inside(s, t) && Faulty(t, e)
  }

  ghost predicate WellFormed(s: Schema) {
    forall e :: !Malformed(s, e)
  }

  // Seen from the parts the script looks at:

  lemma InsidePart(s: Schema, i: nat, t: Schema)
    requires s.ref.None? && Parts(s).Ok? && i < |Parts(s).value| && Inside(Parts(s).value[i], t)
    ensures Inside(s, t)
  {
  }

  lemma InsideParts(s: Schema, t: Schema) returns (i: int)
    requires s.ref.None? && Parts(s).Ok? && Inside(s, t) && t != s
    ensures 0 <= i < |Parts(s).value| && Inside(Parts(s).value[i], t)
  {
    i :| 0 <= i < |Parts(s).value| && Inside(Parts(s).value[i], t);
  }

  lemma RefersIffNamed(s: Schema, name: string)
    requires s.ref.Some?
    ensures RefersTo(s, name) <==> RefTypeName(s.ref.value) == Ok(name)
  {
    RefTypeNameIff(s.ref.value, name);
    if RefTypeName(s.ref.value) == Ok(name) { assert Inside(s, s); }
  }

  lemma RefersIffPart(s: Schema, name: string)
    requires s.ref.None? && Parts(s).Ok?
    ensures RefersTo(s, name) <==> exists i :: 0 <= i < |Parts(s).value| && RefersTo(Parts(s).value[i], name)
  {
    var parts := Parts(s).value;
    if RefersTo(s, name) {
      var t :| Inside(s, t) && t.ref.Some? && Names(t.ref.value, name);
      var i := InsideParts(s, t);
      assert RefersTo(parts[i], name);
    }
    forall i | 0 <= i < |parts| && RefersTo(parts[i], name) ensures RefersTo(s, name) {
      var t :| Inside(parts[i], t) && t.ref.Some? && Names(t.ref.value, name);
      InsidePart(s, i, t);
    }
  }

  lemma PartIsWellFormed(s: Schema, i: nat)
    requires WellFormed(s) && s.ref.None? && Parts(s).Ok? && i < |Parts(s).value|
    ensures WellFormed(Parts(s).value[i])
  {
    forall e, t | Inside(Parts(s).value[i], t) ensures !Faulty(t, e) {
      InsidePart(s, i, t);
      assert !Malformed(s, e);
    }
  }

  lemma PartsAreWellFormed(s: Schema)
    requires s.ref.None? && Parts(s).Ok?
    requires forall i | 0 <= i < |Parts(s).value| :: WellFormed(Parts(s).value[i])
    ensures WellFormed(s)
  {
    forall e, t | Inside(s, t) ensures !Faulty(t, e) {
      if t != s {
        var i := InsideParts(s, t);
        assert !Malformed(Parts(s).value[i], e);
      }
    }
  }

  /** A schema that is well-formed tells what it refers to or what its parts are. */
  lemma WellFormedHere(s: Schema)
    requires WellFormed(s)
    ensures if s.ref.Some? then RefTypeName(s.ref.value).Ok? else Parts(s).Ok?
  {
    assert Inside(s, s);
    if s.ref.Some? {
      assert !Malformed(s, IndexError);
      RefTypeNameIff(s.ref.value, "");
    } else {
      assert !Malformed(s, KeyError);
    }
  }

  ghost predicate IsPath(cs: Components, path: seq<string>) {
    |path| > 0 && forall i | 0 <= i < |path| - 1 :: path[i] in cs && RefersTo(cs[path[i]], path[i + 1])
  }

  ghost predicate Reachable(cs: Components, a: string, b: string) {
    exists path :: IsPath(cs, path) && path[0] == a && path[|path| - 1] == b
  }

  ghost predicate FromSchema(cs: Components, s: Schema, b: string) {
    exists n :: RefersTo(s, n) && Reachable(cs, n, b)
  }

  lemma ReachStep(cs: Components, a: string, b: string)
    ensures Reachable(cs, a, b) <==> a == b || (a in cs && FromSchema(cs, cs[a], b))
  {
    if Reachable(cs, a, b) {
      var path :| IsPath(cs, path) && path[0] == a && path[|path| - 1] == b;
      if |path| > 1 {
        assert IsPath(cs, path[1..]);
        assert Reachable(cs, path[1], b);
      }
    }
    if a == b { assert IsPath(cs, [a]); }
    if a in cs && FromSchema(cs, cs[a], b) {
      var n :| RefersTo(cs[a], n) && Reachable(cs, n, b);
      var path :| IsPath(cs, path) && path[0] == n && path[|path| - 1] == b;
      assert IsPath(cs, [a] + path);
    }
  }

  /** A successful extraction collects exactly what is reachable. */
  lemma {:induction false} AddCollects(cs: Components, name: string, depth: nat)
    requires Add(cs, name, depth).Ok?
    ensures forall b :: b in Add(cs, name, depth).value <==> Reachable(cs, name, b)
    decreases depth, 0
  {
    EvaluateCollects(cs, cs[name], depth - 1);
    forall b ensures b in Add(cs, name, depth).value <==> Reachable(cs, name, b) { ReachStep(cs, name, b); }
  }

  lemma {:induction false} EvaluateCollects(cs: Components, s: Schema, depth: nat)
    requires Evaluate(cs, s, depth).Ok?
    ensures forall b :: b in Evaluate(cs, s, depth).value <==> FromSchema(cs, s, b)
    decreases depth, 0
  {
    if s.ref.Some? {
      AddCollects(cs, RefTypeName(s.ref.value).value, depth - 1);
      forall n ensures RefersTo(s, n) <==> RefTypeName(s.ref.value) == Ok(n) { RefersIffNamed(s, n); }
    } else {
      AllCollect(cs, Parts(s).value, depth - 1);
      forall b ensures b in Evaluate(cs, s, depth).value <==> FromSchema(cs, s, b) { PartsReach(cs, s, b); }
    }
  }

  ghost predicate FromAny(cs: Components, parts: seq<Schema>, b: string) {
    exists i :: 0 <= i < |parts| && FromSchema(cs, parts[i], b)
  }

  lemma FromAnyLast(cs: Components, parts: seq<Schema>, b: string)
    requires parts != []
    ensures FromAny(cs, parts, b) <==>
            FromAny(cs, parts[..|parts| - 1], b) || FromSchema(cs, parts[|parts| - 1], b)
  {
    var most := parts[..|parts| - 1];
    if FromAny(cs, parts, b) {
      var i :| 0 <= i < |parts| && FromSchema(cs, parts[i], b);
      assert i < |most| ==> most[i] == parts[i];
    }
    if FromAny(cs, most, b) {
      var i :| 0 <= i < |most| && FromSchema(cs, most[i], b);
      assert most[i] == parts[i];
    }
  }

  lemma PartsReach(cs: Components, s: Schema, b: string)
    requires s.ref.None? && Parts(s).Ok?
    ensures FromSchema(cs, s, b) <==> FromAny(cs, Parts(s).value, b)
  {
    var parts := Parts(s).value;
    if FromSchema(cs, s, b) {
      var n :| RefersTo(s, n) && Reachable(cs, n, b);
      RefersIffPart(s, n);
      var i :| 0 <= i < |parts| && RefersTo(parts[i], n);
      assert FromSchema(cs, parts[i], b);
    }
    forall i | 0 <= i < |parts| && FromSchema(cs, parts[i], b) ensures FromSchema(cs, s, b) {
      var n :| RefersTo(parts[i], n) && Reachable(cs, n, b);
      RefersIffPart(s, n);
    }
  }

  lemma {:induction false} AllCollect(cs: Components, parts: seq<Schema>, depth: nat)
    requires EvaluateAll(cs, parts, depth).Ok?
    ensures forall b :: b in EvaluateAll(cs, parts, depth).value <==> FromAny(cs, parts, b)
    decreases depth, 1 + |parts|
  {
    if parts != [] {
      var n := |parts| - 1;
      AllCollect(cs, parts[..n], depth);
      EvaluateCollects(cs, parts[n], depth);
      forall b ensures b in EvaluateAll(cs, parts, depth).value <==> FromAny(cs, parts, b) {
        FromAnyLast(cs, parts, b);
      }
    }
  }

  // ---- When an extraction succeeds -------------------------------------------------------

  /** Whatever evaluates is well-formed, and each name it refers to is added with less stack. */
  lemma {:induction false} EvaluatedIsWellFormed(cs: Components, s: Schema, depth: nat)
    requires Evaluate(cs, s, depth).Ok?
    ensures WellFormed(s)
    ensures forall n | RefersTo(s, n) :: exists d: nat :: d < depth && AddsAt(cs, n, d)
    decreases depth, 0
  {
    var parts := if s.ref.Some? then [] else Parts(s).value;
    forall i | 0 <= i < |parts|
      ensures WellFormed(parts[i])
      ensures forall n | RefersTo(parts[i], n) :: exists d: nat :: d < depth && AddsAt(cs, n, d) {
      EachEvaluates(cs, parts, depth - 1, i);
      EvaluatedIsWellFormed(cs, parts[i], depth - 1);
    }
    if s.ref.Some? {
      RefTypeNameIff(s.ref.value, "");
      assert AddsAt(cs, RefTypeName(s.ref.value).value, depth - 1);
      forall n | RefersTo(s, n) ensures n == RefTypeName(s.ref.value).value { RefersIffNamed(s, n); }
    } else {
      PartsAreWellFormed(s);
      forall n | RefersTo(s, n) ensures exists d: nat :: d < depth && AddsAt(cs, n, d) { RefersIffPart(s, n); }
    }
  }

  ghost predicate AddsAt(cs: Components, name: string, depth: nat) {
    Add(cs, name, depth).Ok?
  }

  lemma {:induction false} EachEvaluates(cs: Components, parts: seq<Schema>, depth: nat, i: nat)
    requires EvaluateAll(cs, parts, depth).Ok? && i < |parts|
    ensures Evaluate(cs, parts[i], depth).Ok?
    decreases |parts|
  {
    if i < |parts| - 1 { EachEvaluates(cs, parts[..|parts| - 1], depth, i); }
  }

  lemma {:induction false} AllEvaluate(cs: Components, parts: seq<Schema>, depth: nat)
    requires forall i | 0 <= i < |parts| :: Evaluate(cs, parts[i], depth).Ok?
    ensures EvaluateAll(cs, parts, depth).Ok?
    decreases |parts|
  {
    if parts != [] { AllEvaluate(cs, parts[..|parts| - 1], depth); }
  }

  /** Everything on a path from a name that can be added can be added with no more stack, and with less further on. */
  lemma {:induction false} PathAdds(cs: Components, path: seq<string>, depth: nat) returns (d: nat)
    requires IsPath(cs, path) && Add(cs, path[0], depth).Ok?
    ensures Add(cs, path[|path| - 1], d).Ok? && (if |path| > 1 then d < depth else d == depth)
    decreases |path|
  {
    if |path| == 1 { return depth; }
    EvaluatedIsWellFormed(cs, cs[path[0]], depth - 1);
    var e: nat :| e < depth - 1 && AddsAt(cs, path[1], e);
    assert IsPath(cs, path[1..]);
    d := PathAdds(cs, path[1..], e);
  }

  ghost predicate OnCycle(cs: Components, name: string) {
    name in cs && FromSchema(cs, cs[name], name)
  }

  /** A name on a cycle exhausts any stack. */
  lemma {:induction false} CycleFails(cs: Components, name: string, depth: nat)
    requires OnCycle(cs, name)
    ensures Add(cs, name, depth).Err?
    decreases depth
  {
    if Add(cs, name, depth).Ok? {
      var n :| RefersTo(cs[name], n) && Reachable(cs, n, name);
      var path :| IsPath(cs, path) && path[0] == n && path[|path| - 1] == name;
      assert IsPath(cs, [name] + path);
      var d := PathAdds(cs, [name] + path, depth);
      CycleFails(cs, name, d);
      assert false;
    }
  }

  /** Nothing dangling, malformed or circular can be reached from a name. */
  ghost predicate Extractable(cs: Components, name: string) {
    forall b | Reachable(cs, name, b) :: b in cs && WellFormed(cs[b]) && !OnCycle(cs, b)
  }

  lemma AddedReaches(cs: Components, name: string, depth: nat, b: string)
    requires Add(cs, name, depth).Ok? && Reachable(cs, name, b)
    ensures b in cs && WellFormed(cs[b]) && !OnCycle(cs, b)
  {
    var path :| IsPath(cs, path) && path[0] == name && path[|path| - 1] == b;
    var d := PathAdds(cs, path, depth);
    EvaluatedIsWellFormed(cs, cs[b], d - 1);
    if OnCycle(cs, b) { CycleFails(cs, b, d); }
  }

  lemma AddedIsExtractable(cs: Components, name: string, depth: nat)
    requires Add(cs, name, depth).Ok?
    ensures Extractable(cs, name)
  {
    forall b | Reachable(cs, name, b) ensures b in cs && WellFormed(cs[b]) && !OnCycle(cs, b) {
      AddedReaches(cs, name, depth, b);
    }
  }

  /** What an error other than the stack's is about: something reachable is missing or malformed in that way. */
  ghost predicate Blames(cs: Components, e: Error, b: string) {
    if b in cs then Malformed(cs[b], e) else e == KeyError
  }

  lemma {:induction false} AddFailsWithCause(cs: Components, name: string, depth: nat)
    requires Add(cs, name, depth).Err? && Add(cs, name, depth).error != RecursionLimit
    ensures exists b :: Reachable(cs, name, b) && Blames(cs, Add(cs, name, depth).error, b)
    decreases depth, 0
  {
    ReachStep(cs, name, name);
    if name in cs {
      EvaluateFailsWithCause(cs, cs[name], depth - 1);
      forall b | FromSchema(cs, cs[name], b) ensures Reachable(cs, name, b) { ReachStep(cs, name, b); }
    } else {
      assert Blames(cs, KeyError, name);
    }
  }

  lemma {:induction false} EvaluateFailsWithCause(cs: Components, s: Schema, depth: nat)
    requires Evaluate(cs, s, depth).Err? && Evaluate(cs, s, depth).error != RecursionLimit
    ensures
      var e := Evaluate(cs, s, depth).error;
      Malformed(s, e) || exists b :: FromSchema(cs, s, b) && Blames(cs, e, b)
    decreases depth, 0
  {
    var e := Evaluate(cs, s, depth).error;
    assert Inside(s, s);
    if s.ref.Some? {
      RefTypeNameIff(s.ref.value, "");
      if RefTypeName(s.ref.value).Ok? {
        var name := RefTypeName(s.ref.value).value;
        AddFailsWithCause(cs, name, depth - 1);
        RefersIffNamed(s, name);
        var b :| Reachable(cs, name, b) && Blames(cs, e, b);
        assert FromSchema(cs, s, b);
      } else {
        assert Faulty(s, e);
      }
    } else if Parts(s).Ok? {
      var parts := Parts(s).value;
      var i := SomeFails(cs, parts, depth - 1);
      EvaluateFailsWithCause(cs, parts[i], depth - 1);
      if Malformed(parts[i], e) {
        var t :| Inside(parts[i], t) && Faulty(t, e);
        InsidePart(s, i, t);
      } else {
        var b :| FromSchema(cs, parts[i], b) && Blames(cs, e, b);
        PartsReach(cs, s, b);
      }
    } else {
      assert Faulty(s, e);
    }
  }

  lemma {:induction false} SomeFails(cs: Components, parts: seq<Schema>, depth: nat) returns (i: nat)
    requires EvaluateAll(cs, parts, depth).Err?
    ensures i < |parts|
    ensures Evaluate(cs, parts[i], depth).Err?
    ensures Evaluate(cs, parts[i], depth).error == EvaluateAll(cs, parts, depth).error
    decreases |parts|
  {
    var most := parts[..|parts| - 1];
    if EvaluateAll(cs, most, depth).Err? { i := SomeFails(cs, most, depth); } else { i := |parts| - 1; }
  }

  // More stack never hurts.

  lemma {:induction false} AddMore(cs: Components, name: string, d: nat, e: nat)
    requires d <= e && Add(cs, name, d).Ok?
    ensures Add(cs, name, e).Ok?
    decreases d, 0
  {
    EvaluateMore(cs, cs[name], d - 1, e - 1);
  }

  lemma {:induction false} EvaluateMore(cs: Components, s: Schema, d: nat, e: nat)
    requires d <= e && Evaluate(cs, s, d).Ok?
    ensures Evaluate(cs, s, e).Ok?
    decreases d, 0
  {
    if s.ref.Some? {
      AddMore(cs, RefTypeName(s.ref.value).value, d - 1, e - 1);
    } else {
      var parts := Parts(s).value;
      forall i | 0 <= i < |parts| ensures Evaluate(cs, parts[i], e - 1).Ok? {
        EachEvaluates(cs, parts, d - 1, i);
        EvaluateMore(cs, parts[i], d - 1, e - 1);
      }
      AllEvaluate(cs, parts, e - 1);
    }
  }

  /** The names on the way to a name: each refers to it, directly or not. */
  ghost predicate LeadTo(cs: Components, above: set<string>, name: string) {
    forall a | a in above :: a in cs && FromSchema(cs, cs[a], name)
  }

  ghost predicate LeadToAll(cs: Components, above: set<string>, s: Schema) {
    forall n | RefersTo(s, n) :: LeadTo(cs, above, n)
  }

  lemma ReachOn(cs: Components, a: string, b: string, n: string)
    requires a in cs && b in cs && FromSchema(cs, cs[a], b) && RefersTo(cs[b], n)
    ensures FromSchema(cs, cs[a], n)
  {
    var m :| RefersTo(cs[a], m) && Reachable(cs, m, b);
    var path :| IsPath(cs, path) && path[0] == m && path[|path| - 1] == b;
    var longer := path + [n];
    forall i | 0 <= i < |longer| - 1 ensures longer[i] in cs && RefersTo(cs[longer[i]], longer[i + 1]) {}
    assert IsPath(cs, longer);
    assert Reachable(cs, m, n);
  }

  lemma LeadOn(cs: Components, above: set<string>, name: string, n: string)
    requires LeadTo(cs, above, name) && name in cs && RefersTo(cs[name], n)
    ensures LeadTo(cs, above + {name}, n)
  {
    ReachStep(cs, n, n);
    forall a | a in above ensures FromSchema(cs, cs[a], n) { ReachOn(cs, a, name, n); }
  }

  lemma LeadFurther(cs: Components, above: set<string>, name: string)
    requires LeadTo(cs, above, name) && name in cs
    ensures LeadToAll(cs, above + {name}, cs[name])
  {
    forall n | RefersTo(cs[name], n) ensures LeadTo(cs, above + {name}, n) { LeadOn(cs, above, name, n); }
  }

  ghost predicate AllExtractable(cs: Components, s: Schema) {
    forall n | RefersTo(s, n) :: Extractable(cs, n)
  }

  lemma ExtractableOn(cs: Components, name: string)
    requires Extractable(cs, name) && name in cs
    ensures AllExtractable(cs, cs[name])
  {
    forall n | RefersTo(cs[name], n) ensures Extractable(cs, n) {
      forall b | Reachable(cs, n, b) ensures Reachable(cs, name, b) { ReachStep(cs, name, b); }
    }
  }

  lemma NotAbove(cs: Components, name: string, above: set<string>)
    requires Extractable(cs, name) && LeadTo(cs, above, name)
    ensures name in cs && WellFormed(cs[name]) && name !in above
  {
    ReachStep(cs, name, name);
  }

  lemma Descend(cs: Components, name: string, above: set<string>)
    requires Extractable(cs, name) && LeadTo(cs, above, name)
    ensures name in cs && WellFormed(cs[name])
    ensures LeadToAll(cs, above + {name}, cs[name]) && AllExtractable(cs, cs[name])
    ensures |cs.Keys - (above + {name})| < |cs.Keys - above|
  {
    NotAbove(cs, name, above);
    LeadFurther(cs, above, name);
    ExtractableOn(cs, name);
    Shrinks(cs.Keys, above, name);
  }

  ghost predicate EvaluatesAt(cs: Components, name: string, depth: nat) {
    name in cs && Evaluate(cs, cs[name], depth).Ok?
  }

  lemma AddEvaluated(cs: Components, name: string, depth: nat)
    requires EvaluatesAt(cs, name, depth)
    ensures Add(cs, name, depth + 1).Ok?
  {
  }

  /** The measure is lexicographic: the components not yet on the way to this name, then the schema. */
  lemma {:induction false} AddSucceeds(cs: Components, name: string, above: set<string>) returns (depth: nat)
    requires Extractable(cs, name) && LeadTo(cs, above, name)
    ensures EvaluatesAt(cs, name, depth)
    decreases |cs.Keys - above|, 0
  {
    Descend(cs, name, above);
    depth := EvaluateSucceeds(cs, cs[name], above + {name});
  }

  lemma Shrinks(all: set<string>, above: set<string>, name: string)
    requires name in all && name !in above
    ensures |all - (above + {name})| < |all - above|
  {
    assert all - (above + {name}) == (all - above) - {name};
  }

  lemma {:induction false} EvaluateSucceeds(cs: Components, s: Schema, above: set<string>) returns (depth: nat)
    requires WellFormed(s) && LeadToAll(cs, above, s) && AllExtractable(cs, s)
    ensures Evaluate(cs, s, depth).Ok?
    decreases |cs.Keys - above|, 1, s
  {
    WellFormedHere(s);
    if s.ref.Some? {
      RefersIffNamed(s, RefTypeName(s.ref.value).value);
      var d := AddSucceeds(cs, RefTypeName(s.ref.value).value, above);
      AddEvaluated(cs, RefTypeName(s.ref.value).value, d);
      depth := d + 2;
    } else {
      var d := EachSucceeds(cs, s, |Parts(s).value|, above);
      AllEvaluate(cs, Parts(s).value, d);
      depth := d + 1;
    }
  }

  lemma {:induction false} EachSucceeds(cs: Components, s: Schema, k: nat, above: set<string>) returns (depth: nat)
    requires WellFormed(s) && LeadToAll(cs, above, s) && AllExtractable(cs, s)
    requires s.ref.None? && Parts(s).Ok? && k <= |Parts(s).value|
    ensures forall i | 0 <= i < k :: Evaluate(cs, Parts(s).value[i], depth).Ok?
    decreases |cs.Keys - above|, 1, s, k
  {
    depth := 0;
    if k > 0 {
      var parts := Parts(s).value;
      var first := EachSucceeds(cs, s, k - 1, above);
      PartIsWellFormed(s, k - 1);
      forall n | RefersTo(parts[k - 1], n) ensures RefersTo(s, n) { RefersIffPart(s, n); }
      var last := EvaluateSucceeds(cs, parts[k - 1], above);
      depth := if first < last then last else first;
      forall i | 0 <= i < k ensures Evaluate(cs, parts[i], depth).Ok? {
        EvaluateMore(cs, parts[i], if i < k - 1 then first else last, depth);
      }
    }
  }

  /**
   Some stack is enough to extract a type exactly when everything reachable from it is there, is well-formed and is not
   part of a cycle of references.
   */
  lemma ExtractsIff(cs: Components, name: string)
    ensures (exists depth :: AddsAt(cs, name, depth)) <==> Extractable(cs, name)
  {
    if exists depth :: AddsAt(cs, name, depth) {
      var depth :| AddsAt(cs, name, depth);
      AddedIsExtractable(cs, name, depth);
    }
    if Extractable(cs, name) {
      var depth := AddSucceeds(cs, name, {});
      AddEvaluated(cs, name, depth);
      assert AddsAt(cs, name, depth + 1);
    }
  }

  // ---- The script -------------------------------------------------------------------------

  /** What the script prints for a type: it and everything it refers to, or the error and what it is about. */
  method Extract(components: Components, name: string, depth: nat) returns (r: Result<Components, Error>)
    ensures r.Ok? <==> Add(components, name, depth).Ok?
    ensures r.Ok? ==> forall n :: n in r.value <==> Reachable(components, name, n)
    ensures r.Ok? ==> forall n | n in r.value :: n in components && r.value[n] == components[n]
    ensures r.Err? ==> Add(components, name, depth) == Err(r.error)
    ensures r.Ok? ==> Extractable(components, name)
    ensures r.Err? && r.error != RecursionLimit ==>
              exists b :: Reachable(components, name, b) && Blames(components, r.error, b)
  {
    var extractor := new Extractor(components);
    var done := extractor.AddSchema(name, depth);
    if done.Err? {
      if done.error != RecursionLimit { AddFailsWithCause(components, name, depth); }
      return Err(done.error);
    }
    AddedIsExtractable(components, name, depth);
    AddCollects(components, name, depth);
    r := Ok(extractor.schemas);
  }
}
