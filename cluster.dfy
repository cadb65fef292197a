/** An abstract model of the cluster API the deployer talks to: the object
    store as a map from (kind, namespace, name) to a stored resource, the
    semantics of one create, delete, get, list or client-construction call
    as a pure function, and a class holding the store, an injectable set of
    failing calls and a ghost trace of every call made. */
module Cluster {
  import opened Wrappers
  import opened Objects
  import opened Messages

  datatype Key = Key(kind: Kind, namespace: string, name: string)

  /** The phase the external controller reports on a custom resource; the
      deployer only distinguishes the "complete" sentinel. */
  datatype Phase = PhaseNone | PhaseComplete | PhaseOther(text: string)

  datatype Resource = Resource(name: string, obj: Object, phase: Phase)

  /** What the deployer can tell apart in an API error: the "already exists"
      and "not found" messages, a rejected object, and everything else. */
  datatype ErrorKind = AlreadyExists | NotFound | Invalid | ServerError

  /** An error and the messages it was wrapped with, outermost first. */
  datatype Error = Error(kind: ErrorKind, context: seq<Message>)

  function Wrap(e: Error, message: Message): (w: Error)
    ensures w.kind == e.kind && w.context == [message] + e.context
    ensures e.context == [] ==> w == Error(e.kind, [message])
  {
    e.(context := [message] + e.context)
  }

  /** Clients the deployer obtains before using them; obtaining one can fail. */
  datatype Client = AuthClient | AppsClient | ResourceClient(kind: Kind)

  datatype Call =
    | CreateCall(key: Key)
    | DeleteCall(key: Key)
    | GetCall(key: Key)
    | ListCall(kind: Kind, namespace: string)
    | ConnectCall(client: Client)

  /** One entry of the trace: the call made and the error it returned, if any. */
  datatype Event = Event(call: Call, error: Option<ErrorKind>)

  datatype Action =
    | Create(namespace: string, obj: Object)
    | Delete(kind: Kind, namespace: string, name: string)
    | Get(kind: Kind, namespace: string, name: string)
    | List(kind: Kind, namespace: string)
    | Connect(client: Client)

  /** The object store and the serial the server uses for the next generated name. */
  datatype State = State(objects: map<Key, Resource>, generated: nat)

  datatype Outcome = Outcome(state: State, event: Event)

  /** Cluster-scoped kinds ignore the namespace they are addressed with. */
  function Scope(kind: Kind, namespace: string): string {
    if Namespaced(kind) then namespace else ""
  }

  function NamespaceKey(name: string): Key {
    Key(Namespace, "", name)
  }

  function DigitString(n: nat): (s: string)
    ensures |s| > 0
    decreases n
  {
    if n < 10 then ["0123456789"[n]] else DigitString(n / 10) + ["0123456789"[n % 10]]
  }

  /** The server completes a generateName prefix with a serial of its own
      (a random suffix on a real server). */
  function GeneratedName(prefix: string, serial: nat): (n: string)
    ensures |n| > |prefix| && n[..|prefix|] == prefix
  {
    prefix + DigitString(serial)
  }

  /** The key an object is stored under when created through a client for `namespace`. */
  function CreateKey(s: State, namespace: string, o: Object): Key {
    Key(o.kind, Scope(o.kind, namespace),
        if o.meta.name != "" then o.meta.name else GeneratedName(o.meta.generateName, s.generated))
  }

  function CallOf(s: State, a: Action): Call {
    match a
    case Create(ns, o) => CreateCall(CreateKey(s, ns, o))
    case Delete(kind, ns, name) => DeleteCall(Key(kind, Scope(kind, ns), name))
    case Get(kind, ns, name) => GetCall(Key(kind, Scope(kind, ns), name))
    case List(kind, ns) => ListCall(kind, Scope(kind, ns))
    case Connect(c) => ConnectCall(c)
  }

  /** Why a create is refused, in the order the model checks: an injected
      failure, an object with neither name nor generateName, an object whose
      namespace differs from the client's, a missing namespace, a taken key. */
  function CreateError(s: State, failing: set<Call>, namespace: string, o: Object): Option<ErrorKind> {
    if CreateCall(CreateKey(s, namespace, o)) in failing then Some(ServerError)
    else if o.meta.name == "" && o.meta.generateName == "" then Some(Invalid)
    else if Namespaced(o.kind) && o.meta.namespace != "" && o.meta.namespace != namespace then Some(Invalid)
    else if Namespaced(o.kind) && NamespaceKey(namespace) !in s.objects then Some(NotFound)
    else if CreateKey(s, namespace, o) in s.objects then Some(AlreadyExists)
    else None
  }

  /** Deleting a namespace also deletes everything stored inside it. */
  function Removed(objects: map<Key, Resource>, key: Key): map<Key, Resource> {
    if key.kind == Namespace then
      map k | k in objects && k != key && !(Namespaced(k.kind) && k.namespace == key.name) :: objects[k]
    else
      objects - {key}
  }

  /** The effect of one call on the store and the event it leaves in the trace. */
  function Exec(s: State, failing: set<Call>, a: Action): Outcome {
    var call := CallOf(s, a);
    match a
    case Create(ns, o) =>
      var s1 := if o.meta.name == "" then s.(generated := s.generated + 1) else s;
      var err := CreateError(s, failing, ns, o);
      if err.Some? then Outcome(s1, Event(call, err))
      else
        var key := CreateKey(s, ns, o);
        Outcome(s1.(objects := s.objects[key := Resource(key.name, o, PhaseNone)]), Event(call, None))
    case Delete(_, _, _) =>
      if call in failing then Outcome(s, Event(call, Some(ServerError)))
      else if call.key !in s.objects then Outcome(s, Event(call, Some(NotFound)))
      else Outcome(s.(objects := Removed(s.objects, call.key)), Event(call, None))
    case Get(_, _, _) =>
      if call in failing then Outcome(s, Event(call, Some(ServerError)))
      else if call.key !in s.objects then Outcome(s, Event(call, Some(NotFound)))
      else Outcome(s, Event(call, None))
    case List(_, _) =>
      Outcome(s, Event(call, if call in failing then Some(ServerError) else None))
    case Connect(_) =>
      Outcome(s, Event(call, if call in failing then Some(ServerError) else None))
  }

  /** The store's own invariant: every resource carries its key's name,
      cluster-scoped keys have no namespace, and nothing namespaced outlives
      its namespace. */
  ghost predicate WellFormed(s: State) {
    && (forall k :: k in s.objects ==> s.objects[k].name == k.name)
    && (forall k :: k in s.objects && !Namespaced(k.kind) ==> k.namespace == "")
    && (forall k :: k in s.objects && Namespaced(k.kind) ==> NamespaceKey(k.namespace) in s.objects)
  }

  lemma ExecPreservesWellFormed(s: State, failing: set<Call>, a: Action)
    requires WellFormed(s)
    ensures WellFormed(Exec(s, failing, a).state)
  {
    var t := Exec(s, failing, a).state;
    if a.Delete? && CallOf(s, a) !in failing && CallOf(s, a).key in s.objects {
      var key := CallOf(s, a).key;
      if key.kind == Namespace {
        forall k | k in t.objects && Namespaced(k.kind)
          ensures NamespaceKey(k.namespace) in t.objects
        {
          assert k.namespace != key.name;
        }
      }
    }
  }

  /** `items` enumerates, without repetition, exactly the stored objects of
      one kind in one namespace, in some order the server chooses. */
  ghost predicate IsListing(objects: map<Key, Resource>, kind: Kind, namespace: string, items: seq<Resource>) {
    && (forall i, j :: 0 <= i < j < |items| ==> items[i].name != items[j].name)
    && (forall i :: 0 <= i < |items| ==>
          Key(kind, Scope(kind, namespace), items[i].name) in objects &&
          objects[Key(kind, Scope(kind, namespace), items[i].name)] == items[i])
    && (forall k :: k in objects && k.kind == kind && k.namespace == Scope(kind, namespace) ==>
          exists i :: 0 <= i < |items| && items[i].name == k.name)
  }

  /** Enumerates the keys of `wanted`, one at a time in an order left open,
      with the resource stored under each. */
  method Enumerate(objects: map<Key, Resource>, wanted: set<Key>) returns (keys: seq<Key>, items: seq<Resource>)
    requires wanted <= objects.Keys
    ensures |items| == |keys|
    ensures forall i :: 0 <= i < |keys| ==> keys[i] in wanted && items[i] == objects[keys[i]]
    ensures forall k :: k in wanted ==> k in keys
    ensures forall i, j :: 0 <= i < j < |keys| ==> keys[i] != keys[j]
  {
    var remaining := wanted;
    keys, items := [], [];
    while remaining != {}
      invariant remaining <= wanted
      invariant |items| == |keys|
      invariant forall i :: 0 <= i < |keys| ==> keys[i] in wanted && keys[i] !in remaining && items[i] == objects[keys[i]]
      invariant forall k :: k in wanted ==> k in remaining || k in keys
      invariant forall i, j :: 0 <= i < j < |keys| ==> keys[i] != keys[j]
      decreases remaining
    {
      var k :| k in remaining;
      keys, items := keys + [k], items + [objects[k]];
      remaining := remaining - {k};
    }
  }

  /** A duplicate-free enumeration of the keys of one kind in one namespace
      gives a listing of the resources stored under them. */
  lemma ListingOfKeys(objects: map<Key, Resource>, kind: Kind, namespace: string, keys: seq<Key>, items: seq<Resource>)
    requires WellFormed(State(objects, 0))
    requires |items| == |keys|
    requires forall i :: 0 <= i < |keys| ==>
               keys[i] in objects && keys[i].kind == kind && keys[i].namespace == Scope(kind, namespace) && items[i] == objects[keys[i]]
    requires forall k :: k in objects && k.kind == kind && k.namespace == Scope(kind, namespace) ==> k in keys
    requires forall i, j :: 0 <= i < j < |keys| ==> keys[i] != keys[j]
    ensures IsListing(objects, kind, namespace, items)
  {
    forall i | 0 <= i < |items|
      ensures Key(kind, Scope(kind, namespace), items[i].name) == keys[i]
    {
      assert objects[keys[i]].name == keys[i].name;
    }
    forall k | k in objects && k.kind == kind && k.namespace == Scope(kind, namespace)
      ensures exists i :: 0 <= i < |items| && items[i].name == k.name
    {
      var i :| 0 <= i < |keys| && keys[i] == k;
      assert items[i].name == k.name;
    }
  }

  class Cluster {
    var objects: map<Key, Resource>
    var generated: nat
    /** The failure oracle: these calls fail with a server error. */
    const failing: set<Call>
    ghost var trace: seq<Event>

    function Snapshot(): State
      reads this
    {
      State(objects, generated)
    }

    ghost predicate Valid()
      reads this
    {
      WellFormed(Snapshot())
    }

    /** The call `a` was made: the store moved as `Exec` says and its event was traced. */
    twostate predicate Performed(a: Action)
      reads this
    {
      var o := Exec(old(Snapshot()), failing, a);
      Snapshot() == o.state && trace == old(trace) + [o.event]
    }

    constructor (initial: State, failing: set<Call>)
      requires WellFormed(initial)
      ensures Valid() && Snapshot() == initial && this.failing == failing && trace == []
    {
      objects := initial.objects;
      generated := initial.generated;
      this.failing := failing;
      trace := [];
    }

    function Step(a: Action): Outcome
      reads this
    {
      Exec(Snapshot(), failing, a)
    }

    method Create(namespace: string, o: Object) returns (r: Result<Resource, ErrorKind>)
      requires Valid()
      modifies this
      ensures Valid() && Performed(Action.Create(namespace, o))
      ensures r.Failure? <==> CreateError(old(Snapshot()), failing, namespace, o).Some?
      ensures r.Failure? ==> Some(r.error) == CreateError(old(Snapshot()), failing, namespace, o)
      ensures r.Success? ==> r.value == objects[CreateKey(old(Snapshot()), namespace, o)]
    {
      var key := CreateKey(Snapshot(), namespace, o);
      var err := CreateError(Snapshot(), failing, namespace, o);
      ExecPreservesWellFormed(Snapshot(), failing, Action.Create(namespace, o));
      var out := Step(Action.Create(namespace, o));
      objects, generated, trace := out.state.objects, out.state.generated, trace + [out.event];
      if err.Some? {
        r := Failure(err.value);
      } else {
        r := Success(objects[key]);
      }
    }

    method Delete(kind: Kind, namespace: string, name: string) returns (e: Option<ErrorKind>)
      requires Valid()
      modifies this
      ensures Valid() && Performed(Action.Delete(kind, namespace, name))
      ensures e == Exec(old(Snapshot()), failing, Action.Delete(kind, namespace, name)).event.error
    {
      ExecPreservesWellFormed(Snapshot(), failing, Action.Delete(kind, namespace, name));
      var out := Step(Action.Delete(kind, namespace, name));
      objects, generated, trace := out.state.objects, out.state.generated, trace + [out.event];
      e := out.event.error;
    }

    method Get(kind: Kind, namespace: string, name: string) returns (r: Result<Resource, ErrorKind>)
      requires Valid()
      modifies this`trace
      ensures Performed(Action.Get(kind, namespace, name))
      ensures r.Failure? ==> Some(r.error) == Exec(old(Snapshot()), failing, Action.Get(kind, namespace, name)).event.error
      ensures r.Success? <==> Exec(old(Snapshot()), failing, Action.Get(kind, namespace, name)).event.error.None?
      ensures r.Success? ==> r.value == objects[Key(kind, Scope(kind, namespace), name)]
    {
      var out := Step(Action.Get(kind, namespace, name));
      trace := trace + [out.event];
      var key := Key(kind, Scope(kind, namespace), name);
      if out.event.error.Some? {
        r := Failure(out.event.error.value);
      } else {
        r := Success(objects[key]);
      }
    }

    method Connect(c: Client) returns (e: Option<ErrorKind>)
      requires Valid()
      modifies this`trace
      ensures Performed(Action.Connect(c))
      ensures e.Some? <==> ConnectCall(c) in failing
      ensures e.Some? ==> e.value == ServerError
    {
      var out := Step(Action.Connect(c));
      trace := trace + [out.event];
      e := out.event.error;
    }

    /** Lists the objects of one kind in one namespace, in an order left to the server. */
    method List(kind: Kind, namespace: string) returns (r: Result<seq<Resource>, ErrorKind>)
      requires Valid()
      modifies this`trace
      ensures Performed(Action.List(kind, namespace))
      ensures r.Failure? <==> ListCall(kind, Scope(kind, namespace)) in failing
      ensures r.Failure? ==> r.error == ServerError
      ensures r.Success? ==> IsListing(objects, kind, namespace, r.value)
    {
      var out := Step(Action.List(kind, namespace));
      trace := trace + [out.event];
      if out.event.error.Some? {
        return Failure(ServerError);
      }
      var ns := Scope(kind, namespace);
      var keys, items := Enumerate(objects, set k | k in objects && k.kind == kind && k.namespace == ns);
      ListingOfKeys(objects, kind, namespace, keys, items);
      r := Success(items);
    }
  }
}
