/** The Docker engine as the appliance updater sees it: named containers, and calls that may fail. */
module DockerEngine {
  import opened Wire

  type Id = nat

  /** A configured name, or one that uniqueContainerName made from a label and the clock. */
  datatype Name = Plain(text: string) | Stamped(prefix: string, stamp: nat)

  datatype Kind = Appliance | Helper | Foreign

  /** The image reference and the remaining settings are what a container is created from. */
  datatype Spec = Spec(image: string, settings: string)

  datatype Container = Container(name: Name, running: bool, spec: Spec, kind: Kind)

  type Engine = map<Id, Container>

  /** Which image each container was created from, and what a reference stands for here and in the registry. */
  datatype Images = Images(used: map<Id, string>, here: map<string, string>, registry: map<string, string>) {
    function Here(ref: string): string {
      if ref in here then here[ref] else ""
    }

    function Of(id: Id): string {
      if id in used then used[id] else ""
    }

    function Use(id: Id, ref: string): Images {
      this.(used := used[id := Here(ref)])
    }

    function Fetch(ref: string): Images
      requires ref in registry
    {
      this.(here := here[ref := registry[ref]])
    }
  }

  /**
   The engine with its clock, its next id and its images. Call number n fails without effect when
   fails(n) holds; the history records the engine after every call.
   */
  datatype World = World(
    engine: Engine,
    clock: nat,
    nextId: Id,
    images: Images,
    fails: nat -> bool,
    calls: nat,
    history: seq<Engine>)

  /* ----- Calls ----- */

  predicate Fault(w: World) {
    w.fails(w.calls)
  }

  function Done(w: World, engine: Engine): World {
    w.(engine := engine, calls := w.calls + 1, history := w.history + [engine])
  }

  predicate Taken(e: Engine, name: Name) {
    exists id :: id in e && e[id].name == name
  }

  function UniqueName(w: World, prefix: string): (World, Name) {
    (w.(clock := w.clock + 1), Stamped(prefix, w.clock))
  }

  function Create(w: World, name: Name, spec: Spec, kind: Kind): (World, Option<Id>) {
    if Fault(w) || Taken(w.engine, name) then (Done(w, w.engine), None)
    else
      (Done(w, w.engine[w.nextId := Container(name, false, spec, kind)])
         .(nextId := w.nextId + 1, images := w.images.Use(w.nextId, spec.image)),
       Some(w.nextId))
  }

  function Pull(w: World, ref: string): (World, bool) {
    if Fault(w) || ref !in w.images.registry then (Done(w, w.engine), false)
    else (Done(w, w.engine).(images := w.images.Fetch(ref)), true)
  }

  function InspectImage(w: World, ref: string): (World, Option<string>) {
    (Done(w, w.engine), if Fault(w) || ref !in w.images.here then None else Some(w.images.here[ref]))
  }

  /** Inspecting tells whether the container exists; what it is like is read off the engine. */
  function Inspect(w: World, id: Id): (World, bool) {
    (Done(w, w.engine), !Fault(w) && id in w.engine)
  }

  /** A name that is in use, be it by the container itself, is refused. */
  function Rename(w: World, id: Id, name: Name): (World, bool) {
    if Fault(w) || id !in w.engine || Taken(w.engine, name) then (Done(w, w.engine), false)
    else (Done(w, w.engine[id := w.engine[id].(name := name)]), true)
  }

  /** Starting a running container is answered with status 304, which the client takes for an error. */
  function Start(w: World, id: Id): (World, bool) {
    if Fault(w) || id !in w.engine || w.engine[id].running then (Done(w, w.engine), false)
    else (Done(w, w.engine[id := w.engine[id].(running := true)]), true)
  }

  /** Stopping a stopped container is answered with status 304, which the hand-off accepts. */
  function Stop(w: World, id: Id): (World, bool) {
    if Fault(w) || id !in w.engine then (Done(w, w.engine), false)
    else (Done(w, w.engine[id := w.engine[id].(running := false)]), true)
  }

  function Remove(w: World, id: Id): World {
    if Fault(w) || id !in w.engine then Done(w, w.engine) else Done(w, w.engine - {id})
  }

  /** A call was made from one world to the other: the engine that it left is the last one on record. */
  ghost predicate OneCall(w: World, w': World) {
    w'.calls == w.calls + 1 && w'.history == w.history + [w'.engine] && w'.fails == w.fails && w'.clock == w.clock
  }

  /** Every call, whatever becomes of it, puts the engine that it leaves on record. */
  lemma CallsAreRecorded(w: World, id: Id, name: Name, spec: Spec, kind: Kind, ref: string)
    ensures OneCall(w, Create(w, name, spec, kind).0) && OneCall(w, Remove(w, id))
    ensures OneCall(w, Rename(w, id, name).0) && OneCall(w, Inspect(w, id).0)
    ensures OneCall(w, Start(w, id).0) && OneCall(w, Stop(w, id).0)
    ensures OneCall(w, Pull(w, ref).0) && OneCall(w, InspectImage(w, ref).0)
  {
  }

  /** A call that fails has no effect, and says so where it has an answer. */
  lemma FailingCalls(w: World, id: Id, name: Name, spec: Spec, kind: Kind, ref: string)
    requires w.fails(w.calls)
    ensures var after := Done(w, w.engine);
      && Create(w, name, spec, kind) == (after, None) && InspectImage(w, ref) == (after, None) && Remove(w, id) == after
      && Rename(w, id, name) == (after, false) && Inspect(w, id) == (after, false)
      && Start(w, id) == (after, false) && Stop(w, id) == (after, false) && Pull(w, ref) == (after, false)
  {
  }

  /** What a call that does not fail does to the one container that it is about. */
  lemma SucceedingCalls(w: World, id: Id, name: Name)
    requires !w.fails(w.calls)
    ensures forall i :: i in Remove(w, id).engine <==> i in w.engine && i != id
    ensures Rename(w, id, name).1 <==> id in w.engine && forall i :: i in w.engine ==> w.engine[i].name != name
    ensures Start(w, id).1 <==> id in w.engine && !w.engine[id].running
    ensures Stop(w, id).1 <==> id in w.engine
    ensures Inspect(w, id).1 <==> id in w.engine
  {
  }

  /* ----- What the engine keeps ----- */

  ghost predicate DistinctNames(e: Engine) {
    forall i, j :: i in e && j in e && e[i].name == e[j].name ==> i == j
  }

  /** No two appliances run together. */
  ghost predicate Exclusive(e: Engine) {
    forall i, j :: i in e && j in e && e[i].kind == e[j].kind == Appliance && e[i].running && e[j].running ==> i == j
  }

  ghost predicate SafeEngine(e: Engine) {
    DistinctNames(e) && Exclusive(e)
  }

  /** Ids and stamps that are handed out next are not in use. */
  ghost predicate FreshSupply(w: World) {
    forall id :: id in w.engine ==> id < w.nextId && (w.engine[id].name.Stamped? ==> w.engine[id].name.stamp < w.clock)
  }

  ghost predicate SafeWorld(w: World) {
    && DistinctNames(w.engine) && FreshSupply(w)
    && forall k :: 0 <= k < |w.history| ==> SafeEngine(w.history[k])
  }

  /** Only this appliance may be running. */
  ghost predicate OnlyRuns(e: Engine, id: Id) {
    forall i :: i in e && e[i].kind == Appliance && e[i].running ==> i == id
  }

  ghost predicate NoneRuns(e: Engine) {
    forall i :: i in e && e[i].kind == Appliance ==> !e[i].running
  }

  /** A state of the engine in which at most one given appliance runs. */
  ghost predicate Calm(w: World, id: Id) {
    SafeWorld(w) && OnlyRuns(w.engine, id)
  }

  lemma NamesAreFresh(w: World, prefix: string)
    requires FreshSupply(w)
    ensures !Taken(w.engine, UniqueName(w, prefix).1) && FreshSupply(UniqueName(w, prefix).0)
  {
  }

  lemma CreateKeeps(w: World, name: Name, spec: Spec, kind: Kind, id: Id)
    requires Calm(w, id) && (name.Stamped? ==> name.stamp < w.clock)
    ensures Calm(Create(w, name, spec, kind).0, id)
  {
  }

  lemma RenameKeeps(w: World, target: Id, name: Name, id: Id)
    requires Calm(w, id) && (name.Stamped? ==> name.stamp < w.clock)
    ensures Calm(Rename(w, target, name).0, id)
  {
  }

  lemma RemoveKeeps(w: World, target: Id, id: Id)
    requires Calm(w, id)
    ensures Calm(Remove(w, target), id)
  {
  }

  lemma InspectKeeps(w: World, target: Id, id: Id)
    requires Calm(w, id)
    ensures Calm(Inspect(w, target).0, id)
  {
  }

  /** Starting a helper, or the one appliance that may run, keeps the peace. */
  lemma StartKeeps(w: World, target: Id, id: Id)
    requires Calm(w, id) && (target in w.engine && w.engine[target].kind == Appliance ==> target == id)
    ensures Calm(Start(w, target).0, id)
  {
  }

  lemma StopKeeps(w: World, target: Id, id: Id)
    requires Calm(w, id)
    ensures Calm(Stop(w, target).0, id)
    ensures target == id && Stop(w, target).1 ==> NoneRuns(Stop(w, target).0.engine)
  {
  }
}
