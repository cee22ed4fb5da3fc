/** Event subscriptions: a job filter restricted to identity keys, compiled once, meaning what it says. */
module Selector {
  import opened Types

  type EntityId = Uuid

  datatype Filter =
    | All(fs: seq<Filter>)
    | Any(fs: seq<Filter>)
    | Not(f: Filter)
    | Metadata(key: string, equals: Option<string>)
    | Entity(entity: Option<EntityId>, exact: bool)
    | Id(ids: seq<JobId>)
    | SubmittedBy(principal: string)
    | Phase | OnNode | Image | Search | Submitted | Requests

  datatype Node =
    | AllOf(ns: seq<Node>)
    | AnyOf(ns: seq<Node>)
    | NotOf(n: Node)
    | HasMetadata(key: string, equals: Option<string>)
    | InEntity(entity: Option<EntityId>, exact: bool)
    | IdIn(members: set<JobId>)
    | From(principal: string)

  /** The keys stamped on the event stream when a job is applied. */
  datatype Scope = Scope(metadata: map<string, string>, entityChain: seq<EntityId>, submittedBy: Option<string>)

  datatype Compiled<T> = Ok(value: T) | Forbidden(leaf: string)

  function Compile(f: Filter): Compiled<Node> {
    match f
    case All(fs) =>
      var r := CompileEach(fs);
      if r.Forbidden? then Forbidden(r.leaf) else Ok(AllOf(r.value))
    case Any(fs) =>
      var r := CompileEach(fs);
      if r.Forbidden? then Forbidden(r.leaf) else Ok(AnyOf(r.value))
    case Not(g) =>
      var r := Compile(g);
      if r.Forbidden? then Forbidden(r.leaf) else Ok(NotOf(r.value))
    case Metadata(key, equals) => Ok(HasMetadata(key, equals))
    case Entity(entity, exact) => Ok(InEntity(entity, exact))
    case Id(ids) => Ok(IdIn(set i | i in ids))
    case SubmittedBy(p) => Ok(From(p))
    case Phase => Forbidden("phase")
    case OnNode => Forbidden("node")
    case Image => Forbidden("image")
    case Search => Forbidden("search")
    case Submitted => Forbidden("submitted")
    case Requests => Forbidden("requests")
  }

  /** Left to right, stopping at the first refusal. */
  function CompileEach(fs: seq<Filter>): Compiled<seq<Node>> {
    if fs == [] then Ok([])
    else
      var first := Compile(fs[0]);
      if first.Forbidden? then Forbidden(first.leaf)
      else
        var rest := CompileEach(fs[1..]);
        if rest.Forbidden? then Forbidden(rest.leaf) else Ok([first.value] + rest.value)
  }

  function Eval(n: Node, job: JobId, scope: Scope): bool {
    match n
    case AllOf(ns) => EvalAll(ns, job, scope)
    case AnyOf(ns) => EvalAny(ns, job, scope)
    case NotOf(m) => !Eval(m, job, scope)
    case HasMetadata(key, equals) =>
      key in scope.metadata && (equals.Some? ==> scope.metadata[key] == equals.value)
    case InEntity(entity, exact) =>
      if entity.None? then false
      else if exact then scope.entityChain != [] && scope.entityChain[0] == entity.value
      else entity.value in scope.entityChain
    case IdIn(members) => job in members
    case From(p) => scope.submittedBy == Some(p)
  }

  function EvalAll(ns: seq<Node>, job: JobId, scope: Scope): bool {
    ns == [] || (Eval(ns[0], job, scope) && EvalAll(ns[1..], job, scope))
  }

  function EvalAny(ns: seq<Node>, job: JobId, scope: Scope): bool {
    ns != [] && (Eval(ns[0], job, scope) || EvalAny(ns[1..], job, scope))
  }

  // ---- the filter's own meaning ----

  /** The names of the leaves a subscription cannot answer, in reading order. */
  function ForbiddenLeaves(f: Filter): seq<string> {
    match f
    case All(fs) => ForbiddenAmong(fs)
    case Any(fs) => ForbiddenAmong(fs)
    case Not(g) => ForbiddenLeaves(g)
    case Phase => ["phase"]
    case OnNode => ["node"]
    case Image => ["image"]
    case Search => ["search"]
    case Submitted => ["submitted"]
    case Requests => ["requests"]
    case _ => []
  }

  function ForbiddenAmong(fs: seq<Filter>): seq<string> {
    if fs == [] then [] else ForbiddenLeaves(fs[0]) + ForbiddenAmong(fs[1..])
  }

  /** The filter's truth value for one job's scope keys, by structural recursion. */
  predicate Holds(f: Filter, job: JobId, scope: Scope) {
    match f
    case All(fs) => forall i :: 0 <= i < |fs| ==> Holds(fs[i], job, scope)
    case Any(fs) => exists i :: 0 <= i < |fs| && Holds(fs[i], job, scope)
    case Not(g) => !Holds(g, job, scope)
    case Metadata(key, equals) =>
      if equals.None? then key in scope.metadata else (key, equals.value) in scope.metadata.Items
    case Entity(entity, exact) =>
      entity.Some? && exists i ::
        0 <= i < |scope.entityChain| && scope.entityChain[i] == entity.value && (exact ==> i == 0)
    case Id(ids) => job in ids
    case SubmittedBy(p) => scope.submittedBy == Some(p)
    case _ => false
  }

  // ---- compilation preserves meaning ----

  /** A filter compiles exactly when no forbidden leaf occurs anywhere, and otherwise the first one is named. */
  lemma {:induction false} CompileNamesFirstForbidden(f: Filter)
    ensures Compile(f).Ok? <==> ForbiddenLeaves(f) == []
    ensures Compile(f).Forbidden? ==> Compile(f).leaf == ForbiddenLeaves(f)[0]
    decreases f, 0
  {
    match f
    case All(fs) => CompileEachNamesFirst(fs);
    case Any(fs) => CompileEachNamesFirst(fs);
    case Not(g) => CompileNamesFirstForbidden(g);
    case _ =>
  }

  lemma {:induction false} CompileEachNamesFirst(fs: seq<Filter>)
    ensures CompileEach(fs).Ok? <==> ForbiddenAmong(fs) == []
    ensures CompileEach(fs).Forbidden? ==> CompileEach(fs).leaf == ForbiddenAmong(fs)[0]
    decreases fs, 1
  {
    if fs != [] {
      CompileNamesFirstForbidden(fs[0]);
      CompileEachNamesFirst(fs[1..]);
    }
  }

  /** The compiled selector matches a job exactly when the filter itself holds of it. */
  lemma {:induction false} CompiledMeansFilter(f: Filter, job: JobId, scope: Scope)
    requires Compile(f).Ok?
    ensures Eval(Compile(f).value, job, scope) <==> Holds(f, job, scope)
    decreases f, 0
  {
    match f
    case All(fs) => CompiledAllMeans(fs, job, scope);
    case Any(fs) => CompiledAllMeans(fs, job, scope);
    case Not(g) => CompiledMeansFilter(g, job, scope);
    case Metadata(key, equals) =>
      if equals.Some? && key in scope.metadata {
        assert (key, scope.metadata[key]) in scope.metadata.Items;
      }
    case _ =>
  }

  lemma {:induction false} CompiledAllMeans(fs: seq<Filter>, job: JobId, scope: Scope)
    requires CompileEach(fs).Ok?
    ensures EvalAll(CompileEach(fs).value, job, scope) <==> forall i :: 0 <= i < |fs| ==> Holds(fs[i], job, scope)
    ensures EvalAny(CompileEach(fs).value, job, scope) <==> exists i :: 0 <= i < |fs| && Holds(fs[i], job, scope)
    decreases fs, 1
  {
    if fs != [] {
      CompiledMeansFilter(fs[0], job, scope);
      CompiledAllMeans(fs[1..], job, scope);
      var ns := CompileEach(fs).value;
      assert ns[1..] == CompileEach(fs[1..]).value;
      assert forall i :: 0 < i < |fs| ==> fs[i] == fs[1..][i - 1];
      assert forall i :: 0 <= i < |fs| - 1 ==> fs[1..][i] == fs[i + 1];
    }
  }
}
