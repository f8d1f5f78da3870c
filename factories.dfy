/** Fixture builders for the hierarchical datastore: key proxies, key generation,
    the fields every builder is given, and the resolver that runs after generation. */
module Factories {
  import opened Ndb

  // ---------------------------------------------------------------------------
  // Keys, proxies and property values
  // ---------------------------------------------------------------------------

  /** A store key together with the builder that can make the entity it addresses. */
  datatype KeyProxy = KeyProxy(key: Key, factory: Builder)

  /** What a key-typed slot holds: a plain store key or a proxy standing in for one. */
  datatype KeyRef = Plain(key: Key) | Proxy(proxy: KeyProxy)

  /** The real key behind a reference; every key operation other than `get` on a proxy
      reads this key. */
  function Underlying(r: KeyRef): Key {
    match r
    case Plain(k) => k
    case Proxy(p) => p.key
  }

  /** A property value of an entity: a key reference, a repeated property, or any other value. */
  datatype Value = Ref(ref: KeyRef) | Repeated(items: seq<Value>) | Scalar(literal: string)

  type Properties = map<string, Value>

  /** The resolver's test: the value itself is a proxy (a list of proxies is not). */
  predicate IsProxy(v: Value) {
    v.Ref? && v.ref.Proxy?
  }

  predicate NoProxies(props: Properties) {
    forall n :: n in props ==> !IsProxy(props[n])
  }

  /** No entity in the store holds a proxy as a property value. */
  predicate NoProxiesStored(entities: map<Key, Properties>) {
    forall k :: k in entities ==> NoProxies(entities[k])
  }

  /** The error conditions of the resolver. */
  datatype Error =
    | RecursionDepthExceeded  // dependency creation nested deeper than the stack allows
    | KeyNotProxy             // the entity's own key is a plain key, which has no `_key`

  datatype Outcome = Pass | Fail(error: Error)

  // ---------------------------------------------------------------------------
  // The datastore and its entities
  // ---------------------------------------------------------------------------

  /** An in-memory entity: its key slot and its properties. */
  class Model {
    var key: KeyRef
    var properties: Properties

    constructor (key: KeyRef, properties: Properties)
      ensures this.key == key && this.properties == properties
    {
      this.key := key;
      this.properties := properties;
    }
  }

  /** The datastore: entities' properties by plain key. */
  class Datastore {
    var entities: map<Key, Properties>

    constructor ()
      ensures entities == map[]
    {
      entities := map[];
    }

    /** Looks a key up; `None` when nothing is stored under it. */
    method Get(k: Key) returns (found: Option<Properties>)
      ensures found.Some? <==> k in entities
      ensures found.Some? ==> found.value == entities[k]
    {
      found := if k in entities then Some(entities[k]) else None;
    }

    /** Stores the entity's properties under its underlying key, replacing what was there. */
    method Put(m: Model) returns (k: Key)
      modifies this
      ensures k == Underlying(m.key)
      ensures entities == old(entities)[k := m.properties]
    {
      k := Underlying(m.key);
      entities := entities[k := m.properties];
    }
  }

  // ---------------------------------------------------------------------------
  // Key generation
  // ---------------------------------------------------------------------------

  /** An argument of a key attribute: a plain value, or a declaration with `evaluate`
      together with what it evaluated to for the instance at hand. */
  datatype Arg<T> = Literal(value: Option<T>) | Lazy(value: Option<T>)

  /** The parent a store key is built with: the underlying key of the parent reference. */
  function ParentKey(parent: Option<KeyRef>): (r: Option<Key>)
    ensures r.Some? <==> parent.Some?
    ensures r.Some? ==> r.value == Underlying(parent.value)
  {
    match parent
    case None => None
    case Some(ref) => Some(Underlying(ref))
  }

  /** The key a key attribute produces for one instance drawing sequence number `number`. */
  function KeyFunc(factory: Builder, number: int, id: Arg<KeyId>, parent: Arg<KeyRef>): (p: KeyProxy)
    ensures p.factory == factory && p.key.kind == factory.modelName
    ensures id.Lazy? && id.value.Some? ==> p.key.id == id.value.value
    ensures !(id.Lazy? && id.value.Some?) ==> p.key.id == IntId(number)
    ensures p.key.parent.Some? <==> parent.value.Some?
    ensures parent.value.Some? ==> p.key.parent.value == Underlying(parent.value.value)
  {
    var keyId :=
      match id
      case Lazy(v) => (if v.None? then IntId(number) else v.value)
      case Literal(_) => IntId(number);
    var keyParent :=
      match parent
      case Lazy(v) => v
      case Literal(v) => v;
    KeyProxy(Key(factory.modelName, keyId, ParentKey(keyParent)), factory)
  }

  /** A keyword argument of build/create: not passed, or passed (possibly as None). */
  datatype Kwarg<T> = Absent | Passed(value: Option<T>)

  /** The `id` and `parent` keywords a caller may pass to pin an instance's key. */
  datatype Overrides = Overrides(id: Kwarg<KeyId>, parent: Kwarg<KeyRef>)

  const NoOverrides := Overrides(Absent, Absent)

  /** The instance's `id` attribute: the keyword if passed, else the injected
      sequence declaration's value, which is the sequence number itself. */
  function IdAttribute(number: int, id: Kwarg<KeyId>): Option<KeyId> {
    match id
    case Passed(v) => v
    case Absent => Some(IntId(number))
  }

  /** The instance's `parent` attribute: the keyword if passed, else the injected None. */
  function ParentAttribute(parent: Kwarg<KeyRef>): Option<KeyRef> {
    match parent
    case Passed(v) => v
    case Absent => None
  }

  /** The key the injected `key` declaration gives an instance of `b`. */
  function InstanceKey(b: Builder, number: int, o: Overrides): (p: KeyProxy)
    ensures p.factory == b && p.key.kind == b.modelName
    ensures p.key.id == (if o.id.Passed? && o.id.value.Some? then o.id.value.value else IntId(number))
    ensures p.key.parent ==
      (if o.parent.Passed? && o.parent.value.Some? then Some(Underlying(o.parent.value.value)) else None)
  {
    KeyFunc(b, number, Lazy(IdAttribute(number, o.id)), Lazy(ParentAttribute(o.parent)))
  }

  /** Without an `id` keyword (or with `id=None`) the key's id is a sequence number, so
      it is never 0 once sequences start at FirstSequence(). */
  lemma DefaultIdNonZero(b: Builder, number: int, o: Overrides)
    requires number >= FirstSequence()
    requires o.id == Absent || o.id == Passed(None)
    ensures NonZeroId(InstanceKey(b, number, o).key.id)
  {
  }

  /** Without a `parent` keyword (or with `parent=None`) the generated key is a root key. */
  lemma DefaultKeyIsRoot(b: Builder, number: int, o: Overrides)
    requires o.parent == Absent || o.parent == Passed(None)
    ensures IsRoot(InstanceKey(b, number, o).key)
  {
  }

  /** The first sequence number of every builder: the store refuses id 0. */
  function FirstSequence(): (n: int)
    ensures n > 0
  {
    1
  }

  // ---------------------------------------------------------------------------
  // Builder augmentation
  // ---------------------------------------------------------------------------

  /** The declarations a builder holds, as far as the key fields are concerned. */
  datatype Declaration =
    | KeyAttribute(factory: Builder, parentAttribute: string, idAttribute: string)
      // KeyAttribute(factory, _parent=SelfAttribute(parent, default=None), _id=SelfAttribute(id))
    | SequenceValue  // Sequence(lambda seq: seq)
    | NoneValue      // the plain value None
    | Declared       // a declaration the builder's author wrote

  /** The declarations after the `key`, `id` and `parent` fields are injected for `b`. */
  function InjectedDeclarations(b: Builder, declarations: map<string, Declaration>): (r: map<string, Declaration>)
    ensures r.Keys == declarations.Keys + {"key", "id", "parent"}
    ensures r["key"] == KeyAttribute(b, "parent", "id")
    ensures r["id"] == SequenceValue && r["parent"] == NoneValue
    ensures forall n :: n in declarations && n != "key" && n != "id" && n != "parent" ==> r[n] == declarations[n]
  {
    declarations["key" := KeyAttribute(b, "parent", "id")]["id" := SequenceValue]["parent" := NoneValue]
  }

  /** Appends `name` to the exclude list unless it is already there. */
  function ExcludeOnce(exclude: seq<string>, name: string): (r: seq<string>)
    ensures name in r
    ensures |r| <= |exclude| + 1 && exclude <= r
    ensures multiset(r)[name] == if name in exclude then multiset(exclude)[name] else 1
    ensures forall x :: x in r ==> x in exclude || x == name
  {
    if name in exclude then exclude else exclude + [name]
  }

  /** The exclude list after injection: `id` and `parent` are never passed to the model. */
  function Exclusions(exclude: seq<string>): (r: seq<string>)
    ensures "id" in r && "parent" in r
    ensures |r| <= |exclude| + 2 && exclude <= r
    ensures multiset(r)["id"] == if "id" in exclude then multiset(exclude)["id"] else 1
    ensures multiset(r)["parent"] == if "parent" in exclude then multiset(exclude)["parent"] else 1
    ensures forall x :: x in r ==> x in exclude || x == "id" || x == "parent"
  {
    ExcludeOnce(ExcludeOnce(exclude, "id"), "parent")
  }

  /** Injecting the fields a second time changes nothing. */
  lemma InjectionIdempotent(b: Builder, declarations: map<string, Declaration>, exclude: seq<string>)
    ensures InjectedDeclarations(b, InjectedDeclarations(b, declarations)) == InjectedDeclarations(b, declarations)
    ensures Exclusions(Exclusions(exclude)) == Exclusions(exclude)
  {
  }

  /** A builder for one kind of entity. */
  class Builder {
    /** The name of the model class, which is the kind of its keys. */
    const modelName: string
    /** The properties the builder's own declarations give a new instance. */
    const defaults: Properties
    var declarations: map<string, Declaration>
    var exclude: seq<string>
    /** The sequence number the next instance draws. */
    var sequence: int

    ghost predicate Valid()
      reads this
    {
      && sequence >= FirstSequence()
      && "key" in declarations && declarations["key"] == KeyAttribute(this, "parent", "id")
      && "id" in declarations && declarations["id"] == SequenceValue
      && "parent" in declarations && declarations["parent"] == NoneValue
      && "id" in exclude && "parent" in exclude
    }

    /** Defines the builder: the declarations and exclude list are those it inherits plus
        its own, then the key fields are injected, bound to this builder. */
    constructor (modelName: string, defaults: Properties, declarations: map<string, Declaration>, exclude: seq<string>)
      ensures Valid()
      ensures this.modelName == modelName && this.defaults == defaults
      ensures this.declarations == InjectedDeclarations(this, declarations)
      ensures this.exclude == Exclusions(exclude)
      ensures sequence == FirstSequence()
    {
      this.modelName := modelName;
      this.defaults := defaults;
      this.declarations := declarations;
      this.exclude := exclude;
      this.sequence := FirstSequence();
      new;
      Augment();
    }

    /** Injects the `key`, `id` and `parent` fields. */
    method Augment()
      modifies this`declarations, this`exclude
      ensures declarations == InjectedDeclarations(this, old(declarations))
      ensures exclude == Exclusions(old(exclude))
    {
      declarations := declarations["key" := KeyAttribute(this, "parent", "id")];
      declarations := declarations["id" := SequenceValue];
      if "id" !in exclude {
        exclude := exclude + ["id"];
      }
      declarations := declarations["parent" := NoneValue];
      if "parent" !in exclude {
        exclude := exclude + ["parent"];
      }
    }

    /** Draws the next sequence number. */
    method NextSequence() returns (n: int)
      requires Valid()
      modifies this`sequence
      ensures Valid()
      ensures n == old(sequence) && sequence == n + 1
      ensures NonZeroId(IntId(n))
    {
      n := sequence;
      sequence := sequence + 1;
    }

    /** Evaluates the injected `key` declaration for a new instance. */
    method GenerateKey(o: Overrides) returns (p: KeyProxy)
      requires Valid()
      modifies this`sequence
      ensures Valid() && sequence == old(sequence) + 1
      ensures p == InstanceKey(this, old(sequence), o)
    {
      var number := NextSequence();
      p := KeyFunc(this, number, Lazy(IdAttribute(number, o.id)), Lazy(ParentAttribute(o.parent)));
    }

    /** Builds (create false) or creates (create true) an instance whose key the
        caller supplies: the model is assembled, then the resolver runs. */
    method GenerateWithKey(key: KeyRef, create: bool, store: Datastore, depth: nat) returns (m: Model, outcome: Outcome)
      requires NoProxiesStored(store.entities)
      modifies store
      decreases depth, 4
      ensures fresh(m) && m.key == key
      ensures NoProxiesStored(store.entities)
      ensures !create ==> outcome == Pass && m.properties == defaults && unchanged(store)
      ensures create && outcome.Pass? ==>
        && key.Proxy?
        && m.properties == ResolveProperties(defaults)
        && Dependencies(defaults) <= store.entities.Keys
        && Underlying(key) in store.entities && store.entities[Underlying(key)] == m.properties
      ensures create && key.Proxy? && WithinDepth(defaults, depth) ==> outcome == Pass
      ensures create && key.Proxy? && Dependencies(defaults) <= old(store.entities).Keys ==> outcome == Pass
      ensures create && outcome.Pass? && Dependencies(defaults) <= old(store.entities).Keys ==>
        store.entities == old(store.entities)[Underlying(key) := m.properties]
      ensures ExtendsExcept(old(store.entities), store.entities, Underlying(key))
      ensures store.entities.Keys <= old(store.entities).Keys + {Underlying(key)} + Created(defaults, depth)
      ensures forall k :: k in store.entities && k !in old(store.entities) && k != Underlying(key) ==>
        exists q: KeyProxy :: q.key == k && MadeBy(store.entities, q)
      ensures outcome.Fail? ==> forall k :: k in store.entities && k !in old(store.entities) ==>
        exists q: KeyProxy :: q.key == k && MadeBy(store.entities, q)
    {
      m := new Model(key, defaults);
      outcome := AfterPostGeneration(m, create, store, depth);
    }

    /** Builds or creates a new instance, its key given by the injected `key` declaration. */
    method Generate(o: Overrides, create: bool, store: Datastore, depth: nat) returns (m: Model, outcome: Outcome)
      requires Valid() && NoProxiesStored(store.entities)
      modifies this`sequence, store
      ensures Valid() && sequence == old(sequence) + 1
      ensures fresh(m) && m.key == Proxy(InstanceKey(this, old(sequence), o))
      ensures NoProxiesStored(store.entities)
      ensures !create ==> outcome == Pass && m.properties == defaults && unchanged(store)
      ensures create && outcome.Pass? ==>
        && m.properties == ResolveProperties(defaults)
        && Dependencies(defaults) <= store.entities.Keys
        && Underlying(m.key) in store.entities && store.entities[Underlying(m.key)] == m.properties
      ensures create && WithinDepth(defaults, depth) ==> outcome == Pass
      ensures create && Dependencies(defaults) <= old(store.entities).Keys ==> outcome == Pass
      ensures create && outcome.Pass? && Dependencies(defaults) <= old(store.entities).Keys ==>
        store.entities == old(store.entities)[Underlying(m.key) := m.properties]
      ensures ExtendsExcept(old(store.entities), store.entities, Underlying(m.key))
      ensures store.entities.Keys <= old(store.entities).Keys + {Underlying(m.key)} + Created(defaults, depth)
      ensures forall k :: k in store.entities && k !in old(store.entities) && k != Underlying(m.key) ==>
        exists q: KeyProxy :: q.key == k && MadeBy(store.entities, q)
      ensures outcome.Fail? ==> forall k :: k in store.entities && k !in old(store.entities) ==>
        exists q: KeyProxy :: q.key == k && MadeBy(store.entities, q)
    {
      var p := GenerateKey(o);
      m, outcome := GenerateWithKey(Proxy(p), create, store, depth);
    }
  }

  // ---------------------------------------------------------------------------
  // Resolution of proxies after generation
  // ---------------------------------------------------------------------------

  /** A property value as the resolver leaves it: a proxy becomes its plain key. */
  function ResolveValue(v: Value): Value {
    if IsProxy(v) then Ref(Plain(v.ref.proxy.key)) else v
  }

  /** The properties once every proxy-valued property is rewritten to its plain key. */
  function ResolveProperties(props: Properties): (r: Properties)
    ensures r.Keys == props.Keys
    ensures NoProxies(r)
    ensures forall n :: n in props && !IsProxy(props[n]) ==> r[n] == props[n]
    ensures forall n :: n in props && IsProxy(props[n]) ==> r[n].Ref? && r[n].ref == Plain(props[n].ref.proxy.key)
  {
    map n | n in props :: ResolveValue(props[n])
  }

  /** The keys the proxies among the properties stand for. */
  function Dependencies(props: Properties): (deps: set<Key>)
    ensures forall n :: n in props && IsProxy(props[n]) ==> props[n].ref.proxy.key in deps
    ensures forall k :: k in deps ==> exists n :: n in props && IsProxy(props[n]) && props[n].ref.proxy.key == k
  {
    set n | n in props && IsProxy(props[n]) :: props[n].ref.proxy.key
  }

  /** Every dependency reachable within `depth` nested creations can be resolved without
      running out of depth. */
  ghost predicate WithinDepth(props: Properties, depth: nat)
    decreases depth
  {
    forall n :: n in props && IsProxy(props[n]) ==>
      depth > 0 && WithinDepth(props[n].ref.proxy.factory.defaults, depth - 1)
  }

  /** The keys that creating a missing dependency `p` may store, `depth` levels deep. */
  ghost function CreatedVia(p: KeyProxy, depth: nat): set<Key>
    decreases depth, 1
  {
    {p.key} + Created(p.factory.defaults, depth)
  }

  /** The proxies among the property values. */
  function ProxiesOf(props: Properties): (ps: set<KeyProxy>)
    ensures forall n :: n in props && IsProxy(props[n]) ==> props[n].ref.proxy in ps
    ensures forall p :: p in ps ==> exists n :: n in props && IsProxy(props[n]) && props[n].ref.proxy == p
  {
    set n | n in props && IsProxy(props[n]) :: props[n].ref.proxy
  }

  /** The dependencies are the keys of the proxies held, and once the properties are
      resolved none is left: a second pass of the resolver would create nothing. */
  lemma DependenciesOfProxies(props: Properties)
    ensures Dependencies(props) == set p | p in ProxiesOf(props) :: p.key
    ensures Dependencies(ResolveProperties(props)) == {}
  {
  }

  /** The keys that resolving `props` may store besides the entity's own key. */
  ghost function Created(props: Properties, depth: nat): set<Key>
    decreases depth, 0
  {
    if depth == 0 then {} else CreatedViaAny(ProxiesOf(props), depth - 1)
  }

  ghost function CreatedViaAny(proxies: set<KeyProxy>, depth: nat): set<Key>
    decreases depth, 2
  {
    set p, k | p in proxies && k in CreatedVia(p, depth) :: k
  }

  lemma CreatedViaIncluded(props: Properties, name: string, depth: nat)
    requires name in props && IsProxy(props[name]) && depth > 0
    ensures CreatedVia(props[name].ref.proxy, depth - 1) <= Created(props, depth)
  {
    forall k | k in CreatedVia(props[name].ref.proxy, depth - 1)
      ensures k in Created(props, depth)
    {
      assert props[name].ref.proxy in ProxiesOf(props);
    }
  }

  /** Resolves one proxy-valued property's dependency: when the store has nothing under
      the proxy's key, the entity is created through the proxy and put again. */
  method ResolveDependency(proxy: KeyProxy, store: Datastore, depth: nat) returns (outcome: Outcome)
    requires NoProxiesStored(store.entities)
    modifies store
    decreases depth, 0
    ensures NoProxiesStored(store.entities)
    ensures old(store.entities).Keys <= store.entities.Keys
    ensures store.entities.Keys <= old(store.entities).Keys + (if depth == 0 then {} else CreatedVia(proxy, depth - 1))
    ensures Extends(old(store.entities), store.entities)
    ensures outcome.Pass? ==> proxy.key in store.entities
    ensures outcome.Pass? && proxy.key !in old(store.entities) ==>
      store.entities[proxy.key] == ResolveProperties(proxy.factory.defaults)
    ensures proxy.key in old(store.entities) ==> outcome == Pass && store.entities == old(store.entities)
    ensures depth > 0 && WithinDepth(proxy.factory.defaults, depth - 1) ==> outcome == Pass
    ensures forall k :: k in store.entities && k !in old(store.entities) ==>
      exists q: KeyProxy :: q.key == k && MadeBy(store.entities, q)
  {
    var existing := store.Get(proxy.key);
    if existing.Some? {
      return Pass;
    }
    if depth == 0 {
      return Fail(RecursionDepthExceeded);
    }
    var dependency;
    dependency, outcome := ProxyGet(proxy, true, store, depth - 1);
    if outcome.Pass? {
      ghost var created := store.entities;
      var _ := store.Put(dependency);
      assert store.entities == created;
    }
  }

  /** `KeyProxy.get`: builds the entity the proxy addresses with the bound builder, and
      with `create` also persists it through the builder's create path. */
  method ProxyGet(p: KeyProxy, create: bool, store: Datastore, depth: nat) returns (m: Model, outcome: Outcome)
    requires NoProxiesStored(store.entities)
    modifies store
    decreases depth, 5
    ensures fresh(m) && m.key == Proxy(p)
    ensures NoProxiesStored(store.entities)
    ensures !create ==> outcome == Pass && m.properties == p.factory.defaults && unchanged(store)
    ensures create && outcome.Pass? ==>
      && m.properties == ResolveProperties(p.factory.defaults)
      && p.key in store.entities && store.entities[p.key] == m.properties
    ensures create && WithinDepth(p.factory.defaults, depth) ==> outcome == Pass
    ensures ExtendsExcept(old(store.entities), store.entities, p.key)
    ensures store.entities.Keys <= old(store.entities).Keys + CreatedVia(p, depth)
    ensures forall k :: k in store.entities && k !in old(store.entities) ==>
      exists q: KeyProxy :: q.key == k && MadeBy(store.entities, q)
  {
    ghost var store0 := store.entities;
    if create {
      m, outcome := p.factory.GenerateWithKey(Proxy(p), true, store, depth);
      if outcome.Pass? {
        assert MadeBy(store.entities, p);
      }
    } else {
      m, outcome := p.factory.GenerateWithKey(Proxy(p), false, store, depth);
    }
  }

  /** The property value needs nothing created: it is no proxy, or its key is stored. */
  predicate Satisfied(v: Value, keys: set<Key>) {
    IsProxy(v) ==> v.ref.proxy.key in keys
  }

  /** The keys resolving one property value may store. */
  ghost function CreatedBy(v: Value, depth: nat): set<Key> {
    if IsProxy(v) && depth > 0 then CreatedVia(v.ref.proxy, depth - 1) else {}
  }

  /** Resolving one property value cannot run out of depth. */
  ghost predicate DepthSuffices(v: Value, depth: nat) {
    IsProxy(v) ==> depth > 0 && WithinDepth(v.ref.proxy.factory.defaults, depth - 1)
  }

  /** The store only gained entries: what was in `before` is still there, unchanged. */
  ghost predicate Extends(before: map<Key, Properties>, after: map<Key, Properties>) {
    before.Keys <= after.Keys && forall k :: k in before ==> after[k] == before[k]
  }

  /** Like Extends, except that the entry under `own` may have been replaced. */
  ghost predicate ExtendsExcept(before: map<Key, Properties>, after: map<Key, Properties>, own: Key) {
    before.Keys <= after.Keys && forall k :: k in before && k != own ==> after[k] == before[k]
  }

  /** The entry under the proxy's key is what the proxy makes: the resolved properties
      of its builder. */
  predicate MadeBy(entities: map<Key, Properties>, p: KeyProxy) {
    p.key in entities && entities[p.key] == ResolveProperties(p.factory.defaults)
  }

  /** Entries made by proxies over two stretches of resolution stay made by proxies. */
  lemma MadeByChain(a: map<Key, Properties>, b: map<Key, Properties>, c: map<Key, Properties>)
    requires forall k :: k in b && k !in a ==> exists q: KeyProxy :: q.key == k && MadeBy(b, q)
    requires Extends(b, c) && forall k :: k in c && k !in b ==> exists q: KeyProxy :: q.key == k && MadeBy(c, q)
    ensures forall k :: k in c && k !in a ==> exists q: KeyProxy :: q.key == k && MadeBy(c, q)
  {
    forall k | k in c && k !in a && k in b ensures exists q: KeyProxy :: q.key == k && MadeBy(c, q) {
      var p: KeyProxy :| p.key == k && MadeBy(b, p);
      assert MadeBy(c, p);
    }
  }

  lemma PutPreserves(before: map<Key, Properties>, middle: map<Key, Properties>, own: Key, props: Properties, created: set<Key>)
    requires Extends(before, middle) && middle.Keys <= before.Keys + created
    requires NoProxiesStored(middle) && NoProxies(props)
    ensures ExtendsExcept(before, middle[own := props], own)
    ensures middle[own := props].Keys <= before.Keys + {own} + created
    ensures NoProxiesStored(middle[own := props])
  {
  }

  /** Putting an entity keeps every other new entry as a proxy made it. */
  lemma PutKeepsMadeBy(before: map<Key, Properties>, middle: map<Key, Properties>, own: Key, props: Properties)
    requires forall k :: k in middle && k !in before ==> exists q: KeyProxy :: q.key == k && MadeBy(middle, q)
    ensures forall k :: k in middle[own := props] && k !in before && k != own ==>
      exists q: KeyProxy :: q.key == k && MadeBy(middle[own := props], q)
  {
    forall k | k in middle[own := props] && k !in before && k != own
      ensures exists q: KeyProxy :: q.key == k && MadeBy(middle[own := props], q)
    {
      var p: KeyProxy :| p.key == k && MadeBy(middle, p);
      assert MadeBy(middle[own := props], p);
    }
  }

  /** The loop body: resolves the property `name`. */
  method ResolveProperty(obj: Model, name: string, store: Datastore, depth: nat) returns (outcome: Outcome)
    requires name in obj.properties && NoProxiesStored(store.entities)
    modifies obj`properties, store
    decreases depth, 1
    ensures NoProxiesStored(store.entities)
    ensures outcome.Pass? ==> obj.properties == old(obj.properties)[name := ResolveValue(old(obj.properties)[name])]
    ensures outcome.Fail? ==> obj.properties == old(obj.properties)
    ensures Extends(old(store.entities), store.entities)
    ensures store.entities.Keys <= old(store.entities).Keys + CreatedBy(old(obj.properties)[name], depth)
    ensures outcome.Pass? ==> Satisfied(old(obj.properties)[name], store.entities.Keys)
    ensures Satisfied(old(obj.properties)[name], old(store.entities).Keys) ==>
      outcome == Pass && store.entities == old(store.entities)
    ensures DepthSuffices(old(obj.properties)[name], depth) ==> outcome == Pass
    ensures forall k :: k in store.entities && k !in old(store.entities) ==>
      exists q: KeyProxy :: q.key == k && MadeBy(store.entities, q)
  {
    var value := obj.properties[name];
    if value.Ref? && value.ref.Proxy? {
      var proxy := value.ref.proxy;
      outcome := ResolveDependency(proxy, store, depth);
      if outcome.Fail? {
        return;
      }
      obj.properties := obj.properties[name := Ref(Plain(proxy.key))];
    } else {
      outcome := Pass;
    }
  }

  /** Exactly the properties outside `remaining` are resolved. */
  ghost predicate ResolvedExcept(props: Properties, remaining: set<string>, current: Properties) {
    current.Keys == props.Keys &&
    forall n :: n in props ==> current[n] == (if n in remaining then props[n] else ResolveValue(props[n]))
  }

  /** Every property outside `remaining` has its dependency among `keys`. */
  ghost predicate SatisfiedExcept(props: Properties, remaining: set<string>, keys: set<Key>) {
    forall n :: n in props && n !in remaining ==> Satisfied(props[n], keys)
  }

  lemma CreatedByIncluded(props: Properties, name: string, depth: nat)
    requires name in props
    ensures CreatedBy(props[name], depth) <= Created(props, depth)
  {
    if IsProxy(props[name]) && depth > 0 {
      CreatedViaIncluded(props, name, depth);
    }
  }

  lemma SatisfiedExceptStep(props: Properties, remaining: set<string>, name: string, before: set<Key>, after: set<Key>)
    requires name in props && SatisfiedExcept(props, remaining, before)
    requires before <= after && Satisfied(props[name], after)
    ensures SatisfiedExcept(props, remaining - {name}, after)
  {
  }

  lemma ResolvedExceptStep(props: Properties, remaining: set<string>, name: string, current: Properties)
    requires name in remaining && remaining <= props.Keys && ResolvedExcept(props, remaining, current)
    ensures ResolvedExcept(props, remaining - {name}, current[name := ResolveValue(props[name])])
  {
  }

  lemma ResolvedExceptDone(props: Properties, current: Properties, keys: set<Key>)
    requires ResolvedExcept(props, {}, current) && SatisfiedExcept(props, {}, keys)
    ensures current == ResolveProperties(props)
    ensures Dependencies(props) <= keys
  {
  }

  /** What resolving `props` from the store `store0` may have done to it so far: only
      added entries without proxies, for keys the dependencies can create, and nothing
      at all when every dependency was already stored. */
  ghost predicate GrownFrom(store0: map<Key, Properties>, entities: map<Key, Properties>, props: Properties, depth: nat) {
    && NoProxiesStored(entities)
    && Extends(store0, entities)
    && entities.Keys <= store0.Keys + Created(props, depth)
    && (Dependencies(props) <= store0.Keys ==> entities == store0)
  }

  /** Resolving one more property keeps GrownFrom. */
  lemma GrownFromStep(store0: map<Key, Properties>, before: map<Key, Properties>, after: map<Key, Properties>,
                      props: Properties, name: string, depth: nat)
    requires name in props && GrownFrom(store0, before, props, depth)
    requires NoProxiesStored(after) && Extends(before, after)
    requires after.Keys <= before.Keys + CreatedBy(props[name], depth)
    requires Satisfied(props[name], before.Keys) ==> after == before
    ensures GrownFrom(store0, after, props, depth)
  {
    CreatedByIncluded(props, name, depth);
    assert Dependencies(props) <= store0.Keys ==> Satisfied(props[name], store0.Keys);
  }

  /** The resolver's loop: for each property holding a proxy, makes the referenced entity
      exist and rewrites the property to the proxy's plain key. A failure stops the loop
      and leaves what was done so far. */
  method ResolveReferences(obj: Model, store: Datastore, depth: nat) returns (outcome: Outcome)
    requires NoProxiesStored(store.entities)
    modifies obj`properties, store
    decreases depth, 2
    ensures NoProxiesStored(store.entities)
    ensures Extends(old(store.entities), store.entities)
    ensures store.entities.Keys <= old(store.entities).Keys + Created(old(obj.properties), depth)
    ensures outcome.Pass? ==>
      && obj.properties == ResolveProperties(old(obj.properties))
      && Dependencies(old(obj.properties)) <= store.entities.Keys
    ensures Dependencies(old(obj.properties)) <= old(store.entities).Keys ==>
      outcome == Pass && store.entities == old(store.entities)
    ensures WithinDepth(old(obj.properties), depth) ==> outcome == Pass
    ensures obj.properties.Keys == old(obj.properties).Keys
    ensures forall n :: n in old(obj.properties) ==>
      obj.properties[n] == old(obj.properties)[n] || obj.properties[n] == ResolveValue(old(obj.properties)[n])
    ensures forall k :: k in store.entities && k !in old(store.entities) ==>
      exists q: KeyProxy :: q.key == k && MadeBy(store.entities, q)
  {
    ghost var props0 := obj.properties;
    ghost var store0 := store.entities;
    var remaining := obj.properties.Keys;
    while remaining != {}
      invariant remaining <= props0.Keys
      invariant ResolvedExcept(props0, remaining, obj.properties)
      invariant SatisfiedExcept(props0, remaining, store.entities.Keys)
      invariant GrownFrom(store0, store.entities, props0, depth)
      invariant forall k :: k in store.entities && k !in store0 ==>
        exists q: KeyProxy :: q.key == k && MadeBy(store.entities, q)
      decreases remaining
    {
      var name :| name in remaining;
      ghost var before := store.entities;
      ResolvedExceptStep(props0, remaining, name, obj.properties);
      assert WithinDepth(props0, depth) ==> DepthSuffices(props0[name], depth);
      outcome := ResolveProperty(obj, name, store, depth);
      GrownFromStep(store0, before, store.entities, props0, name, depth);
      MadeByChain(store0, before, store.entities);
      if outcome.Fail? {
        return;
      }
      SatisfiedExceptStep(props0, remaining, name, before.Keys, store.entities.Keys);
      remaining := remaining - {name};
    }
    ResolvedExceptDone(props0, obj.properties, store.entities.Keys);
    outcome := Pass;
  }

  /** The post-generation resolver. With `create` false it does nothing. With `create`
      true it makes every proxy-valued property's entity exist (creating and storing it
      when the store has none), rewrites those properties to plain keys, stores the entity
      under its plain key and puts the proxy back into the entity's key slot. */
  method AfterPostGeneration(obj: Model, create: bool, store: Datastore, depth: nat) returns (outcome: Outcome)
    requires NoProxiesStored(store.entities)
    modifies obj, store
    decreases depth, 3
    ensures !create ==> outcome == Pass && unchanged(obj) && unchanged(store)
    ensures obj.key == old(obj.key)
    ensures NoProxiesStored(store.entities)
    ensures ExtendsExcept(old(store.entities), store.entities, Underlying(obj.key))
    ensures store.entities.Keys <= old(store.entities).Keys + {Underlying(obj.key)} + Created(old(obj.properties), depth)
    ensures outcome.Fail? ==> Extends(old(store.entities), store.entities)
    ensures create && obj.key.Plain? ==> outcome.Fail?
    ensures create && obj.key.Proxy? && WithinDepth(old(obj.properties), depth) ==> outcome == Pass
    ensures create && obj.key.Proxy? && Dependencies(old(obj.properties)) <= old(store.entities).Keys ==> outcome == Pass
    // on success
    ensures create && outcome.Pass? ==>
      && obj.properties == ResolveProperties(old(obj.properties))
      && Dependencies(old(obj.properties)) <= store.entities.Keys
      && Underlying(obj.key) in store.entities && store.entities[Underlying(obj.key)] == obj.properties
    ensures create && outcome.Pass? && Dependencies(old(obj.properties)) <= old(store.entities).Keys ==>
      store.entities == old(store.entities)[Underlying(obj.key) := obj.properties]
    // on failure nothing is rolled back: each property is as it was or already resolved
    ensures obj.properties.Keys == old(obj.properties).Keys
    ensures forall n :: n in old(obj.properties) ==>
      obj.properties[n] == old(obj.properties)[n] || obj.properties[n] == ResolveValue(old(obj.properties)[n])
    // every other entry it adds is what a proxy to that key makes
    ensures forall k :: k in store.entities && k !in old(store.entities) && k != Underlying(obj.key) ==>
      exists q: KeyProxy :: q.key == k && MadeBy(store.entities, q)
    ensures outcome.Fail? ==> forall k :: k in store.entities && k !in old(store.entities) ==>
      exists q: KeyProxy :: q.key == k && MadeBy(store.entities, q)
  {
    if !create {
      return Pass;
    }
    ghost var store0 := store.entities;
    outcome := ResolveReferences(obj, store, depth);
    if outcome.Fail? {
      return;
    }
    var proxyKey := obj.key;
    if !proxyKey.Proxy? {
      return Fail(KeyNotProxy);
    }
    PutPreserves(store0, store.entities, proxyKey.proxy.key, obj.properties, Created(old(obj.properties), depth));
    PutKeepsMadeBy(store0, store.entities, proxyKey.proxy.key, obj.properties);
    obj.key := Plain(proxyKey.proxy.key);
    var _ := store.Put(obj);
    obj.key := proxyKey;
  }

  // ---------------------------------------------------------------------------
  // The order in which properties are visited
  // ---------------------------------------------------------------------------

  /** Rewrites one property the way the resolver's loop body does. */
  function ResolveOne(props: Properties, name: string): Properties {
    if name in props then props[name := ResolveValue(props[name])] else props
  }

  /** Rewrites the properties one name at a time, in the order given. */
  function ResolveInOrder(props: Properties, names: seq<string>): Properties
    decreases |names|
  {
    if names == [] then props else ResolveInOrder(ResolveOne(props, names[0]), names[1..])
  }

  /** The properties with exactly those named in `done` resolved. */
  function PartlyResolved(props: Properties, done: set<string>): (r: Properties)
    ensures r.Keys == props.Keys
  {
    map n | n in props :: if n in done then ResolveValue(props[n]) else props[n]
  }

  lemma {:induction false} ResolveInOrderPartly(props: Properties, names: seq<string>)
    ensures ResolveInOrder(props, names) == PartlyResolved(props, set n | n in names)
    decreases |names|
  {
    if names == [] {
      assert PartlyResolved(props, set n | n in names) == props;
    } else {
      var first, rest := names[0], names[1..];
      var once := ResolveOne(props, first);
      ResolveInOrderPartly(once, rest);
      var restSet := set n | n in rest;
      var allSet := set n | n in names;
      assert allSet == restSet + {first} by {
        forall n ensures n in allSet <==> n in restSet + {first} {
          if n in names && n != first {
            var i :| 0 <= i < |names| && names[i] == n;
            assert names[i] == rest[i - 1];
          }
        }
      }
      assert PartlyResolved(once, restSet) == PartlyResolved(props, allSet);
    }
  }

  /** The order in which the resolver visits the properties does not matter: any
      enumeration of the property names gives the fully resolved properties. */
  lemma {:induction false} ResolveOrderIrrelevant(props: Properties, names: seq<string>)
    requires forall n :: n in props <==> n in names
    ensures ResolveInOrder(props, names) == ResolveProperties(props)
  {
    ResolveInOrderPartly(props, names);
    assert PartlyResolved(props, set n | n in names) == ResolveProperties(props);
  }

  /** Resolving already resolved properties changes nothing, so the re-put of a created
      dependency stores what is already there. */
  lemma ResolveIdempotent(props: Properties)
    ensures ResolveProperties(ResolveProperties(props)) == ResolveProperties(props)
  {
  }
}
