# factoryboy-gaendb in Dafny

A model of `gaendb/factories.py`, the glue between factory_boy builders and App Engine
NDB models, together with proofs about it.

- **Key proxies** (`KeyProxy`). A proxy is a store key bound to the builder that can
  produce the entity it addresses. `ProxyGet` models `KeyProxy.get`: with `create` it
  makes and stores that entity, and without it it only builds it in memory.
- **The key attribute** (`KeyFunc`, `InstanceKey`). It computes each instance's key from
  the instance's sequence number and its `id` and `parent` attributes.
- **The metaclass injection** (`Builder.constructor`, `Builder.Augment`,
  `InjectedDeclarations`, `Exclusions`). When a builder is defined, it gains the `key`,
  `id` and `parent` declarations, and `id` and `parent` are added to its exclude list.
- **The post-generation resolver** (`AfterPostGeneration`, `ResolveReferences`,
  `ResolveProperty`, `ResolveDependency`). For a proxy-valued property whose entity is
  missing, it creates and stores that entity. It then rewrites such properties to plain
  keys and stores the entity under its plain key. Finally it puts the proxy back into the
  entity's key slot.
- **The first sequence number** (`FirstSequence`). It is 1, so a default id is never the
  id 0 that the store refuses.

Files:

- `ndb.dfy` (module `Ndb`): the store's key type.
- `factories.dfy` (module `Factories`): the model of `gaendb/factories.py`.
- `scenarios.dfy` (module `Scenarios`): client methods that use only the contracts.
  - Successive default ids count up from 1.
  - A pinned id leaves the next default id at the next sequence number.
  - Creating a post whose author does not exist stores exactly the author and the post.
  - A second post reuses a stored author.
  - Building, as opposed to creating, stores nothing.

How the model represents the source:

- A builder is a `class`. Its declarations, exclude list and sequence counter are fields
  that its methods update. Its `defaults` stand for the values that its other
  declarations give a new instance.
- An NDB entity is a `Model` object with a key slot and a property map.
- The store is a `Datastore` object holding a map from plain keys to properties.
- `KeyProxy.__getattribute__` forwards the key's attributes to the wrapped key. Dunder
  names and `get`, `_key` and `_kind_factory` stay on the proxy itself. The model makes
  the forwarding explicit with `Underlying`, the key a reference stands for.
- The resolver can create a dependency, whose own resolver can create another. A `depth`
  bound stands in for the call stack, and running out of it is the outcome
  `Fail(RecursionDepthExceeded)`.

## Model

| member | source | states |
|---|---|---|
| Factories.KeyFunc | gaendb/factories.py:48-66 | The proxy is bound to the given builder and its key has that builder's model name as kind. The id is what a lazy `_id` evaluates to. It is the sequence number when `_id` evaluates to None or is a plain value. The key has a parent exactly when the parent argument yields one, and the parent is then the reference's underlying key. |
| Factories.InstanceKey | gaendb/factories.py:84-99 | The injected key declaration gives kind = model name and the builder as bound factory. The id is the `id` keyword when one is passed and not None, else the sequence number. The parent is the underlying key of the `parent` keyword when one is passed and not None, else absent. |
| Factories.DefaultIdNonZero | gaendb/factories.py:133-141 | Without an `id` keyword, or with `id=None`, a key drawn from a sequence number at or above the first one has an id other than 0. |
| Factories.DefaultKeyIsRoot | gaendb/factories.py:84-99 | Without a `parent` keyword, or with `parent=None`, the generated key has no parent. |
| Factories.FirstSequence | gaendb/factories.py:133-141 | The first sequence number is positive. |
| Factories.InjectedDeclarations | gaendb/factories.py:84-99 | After injection, the declaration names are the old ones plus `key`, `id` and `parent`. `key` is a key attribute bound to the builder, reading the `parent` and `id` attributes. `id` is the sequence and `parent` is None. Every other declaration is unchanged. |
| Factories.ExcludeOnce | gaendb/factories.py:95-96 | The name is in the result. The old list is a prefix of the result, which grows by at most one. The name occurs exactly once unless it was already there, and nothing other than the name is added. |
| Factories.Exclusions | gaendb/factories.py:95-101 | `id` and `parent` are both excluded. The old list is a prefix of the result, which grows by at most two. Each of `id` and `parent` occurs once unless it was already there, and nothing else is added. |
| Factories.InjectionIdempotent | gaendb/factories.py:95-101 | Injecting the declarations and exclusions a second time changes nothing. |
| Factories.Builder.constructor | gaendb/factories.py:78-103 | A newly defined builder holds its inherited declarations with `key`/`id`/`parent` injected and bound to itself. Its exclude list is extended by `id` and `parent`. Its counter starts at the first sequence number, and the builder invariant holds. |
| Factories.Builder.Augment | gaendb/factories.py:84-101 | The declarations become the injected declarations of the old ones, and the exclude list becomes the exclusions of the old one. |
| Factories.Builder.NextSequence | gaendb/factories.py:92 | Returns the current counter, which is never 0 as an id, and advances the counter by one. |
| Factories.Builder.GenerateKey | gaendb/factories.py:84-92 | The key of a new instance is `InstanceKey` of the builder, the sequence number it draws, and the keywords. The counter advances by one even when `id` is passed. |
| Factories.Builder.GenerateWithKey | gaendb/factories.py:31-34 | With a supplied key, building stores nothing and keeps the declared properties. Creating with enough depth succeeds, as it does when every dependency is already stored. Success leaves resolved properties, stored dependencies and the entity stored under its plain key. When no dependency was missing, exactly that one entry changes. Every other entry added holds what some proxy to that key makes. A plain key fails. |
| Factories.Builder.Generate | gaendb/factories.py:116-131 | The new instance's key slot holds the proxy `InstanceKey` gives. Building leaves the store unchanged. Creating resolves and stores as `AfterPostGeneration` states. The store gains at most the own key and the keys the dependencies can create. |
| Factories.ProxyGet | gaendb/factories.py:23-34 | The entity produced has the proxy as key and the bound builder's properties. Without `create` the store is untouched. With `create`, success stores the entity under the proxy's key with its properties resolved, and enough depth guarantees success. Every entry the call adds holds what some proxy to that key makes: the resolved properties of the proxy's builder. |
| Factories.AfterPostGeneration | gaendb/factories.py:116-131 | Without `create` nothing changes. With `create`, success means four things: every property is resolved to plain keys, every referenced key is stored, the entity is stored under its plain key, and the key slot holds the proxy again. When all dependencies already existed, only the entity's own entry changes. Every other entry it adds holds what some proxy to that key makes, the resolved properties of the proxy's builder. A failure stops part-way without rollback. |
| Factories.ResolveReferences | gaendb/factories.py:120-126 | The loop rewrites every proxy-valued property to its plain key and leaves the others alone. On success every dependency is stored. The store only gains entries, at most those the dependencies can create. When no dependency is missing the store is unchanged. Every entry added holds what some proxy to that key makes, the resolved properties of the proxy's builder. |
| Factories.ResolveProperty | gaendb/factories.py:121-126 | One property is resolved. On success a proxy value's key is stored and the property becomes the plain key. On failure the property is unchanged. Nothing is created when the key was already stored. |
| Factories.ResolveDependency | gaendb/factories.py:123-125 | A stored key is left alone. A missing key is created through the proxy: on success the store holds, under the proxy's key, the resolved properties of the proxy's builder. Every other entry added is likewise what some proxy to its key makes. The store keeps all its old entries. At depth 0 with the key missing the outcome is a failure. |
| Factories.ResolveProperties | gaendb/factories.py:120-126 | Same property names, and no proxy left. Non-proxy values are unchanged, and each proxy becomes its plain key. |
| Factories.DependenciesOfProxies | gaendb/factories.py:120-126 | The keys the resolver may have to create are the keys of the proxies the properties hold, and none is left once the properties are resolved, so a second pass would create nothing. |
| Factories.ResolveInOrderPartly | gaendb/factories.py:120-126 | Rewriting the properties one name at a time, in any order, rewrites exactly the names visited. A standalone statement about the rewriting in lines 122-126, apart from the store. |
| Factories.ResolveOrderIrrelevant | gaendb/factories.py:120-126 | Rewriting along any enumeration of the property names yields the fully resolved properties. This concerns the properties only: what is stored under a key two proxies share depends on which property is visited first. |
| Factories.ResolveIdempotent | gaendb/factories.py:120-126 | Resolving resolved properties changes nothing: running the rewrite of lines 122-126 again over a resolved entity leaves it as it is. |
| Factories.Datastore.Get | gaendb/factories.py:123 | A lookup finds something exactly when the key is stored, and then returns the stored properties. |
| Factories.Datastore.Put | gaendb/factories.py:129 | Storing an entity writes its properties under the underlying key of its key slot and changes no other entry. |

## Left out

- The NDB storage engine, key validation, transactions and `ctx_options`. The store is a map, and a store error is not modelled. The only failures are running out of depth and a plain own key.
- `KeyProxy.__new__` and `__getattribute__` are Python object-model mechanics. `Underlying` stands for the attribute forwarding.
- Factories.Builder.Generate: the builder's other declarations are given as one constant map, `defaults`, shared by every instance. In factory_boy they are evaluated for each instance. A reference field declared as `KeyAttribute(OtherFactory)` uses the referencing instance's own sequence number (lines 48-54), so the second post gets a different author key than the first.
- Factories.Builder.Generate: `Overrides` carries only `id` and `parent`. A keyword for any other field, such as `create(author=...)`, cannot be expressed.
- factory_boy's evaluation of declarations is outside the model. Its strategy dispatch, `results` of other post-generation hooks, and the `type=int` argument of the sequence declaration are not modelled.
- The class attributes `key`, `id` and `parent` are set on the builder class by the metaclass, in lines 89, 93 and 98. They are modelled only through the declarations map, which is where factory_boy reads them.
- Factories.Builder.GenerateWithKey: does not draw the builder's sequence number. factory_boy draws one for every instance, even when a key is supplied, but modelling that would put every builder's counter in every method's frame. `Generate` does draw one.
- Factories.AfterPostGeneration: recursion is bounded by a `depth` parameter that stands for the call stack. Python's recursion limit and cycles between builders show up only as `Fail(RecursionDepthExceeded)`.
- Factories.AfterPostGeneration: a plain own key is `Fail(KeyNotProxy)`. In Python this raises `AttributeError`, at line 128, after the dependencies have been created.
- Only top-level proxy values are resolved, as the `isinstance` test at line 122 does. A proxy inside a repeated property is stored as it is.
- The following are how the code behaves, and the model follows the code:
  - Passing `id` still advances the counter, because `key_func` receives the sequence number drawn for the instance.
  - `parent` is excluded from the entity's properties, so the resolver never creates a parent entity.
  - After `create`, a reference property holds the plain key, because line 126 sets `value._key`. Only the entity's own key slot gets its proxy back.
- `setup.py` (packaging) is not part of this model.
