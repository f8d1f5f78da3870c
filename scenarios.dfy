/** Client code: what callers of the builders can rely on, from the contracts alone. */
module Scenarios {
  import opened Ndb
  import opened Factories

  /** Successive default keys of one builder count up from 1. */
  method UserSequence() {
    var store := new Datastore();
    var users := new Builder("User", map[], map[], []);
    assert WithinDepth(map[], 1);
    var u1, o1 := users.Generate(NoOverrides, true, store, 1);
    var u2, o2 := users.Generate(NoOverrides, true, store, 1);
    assert Underlying(u1.key) == Key("User", IntId(1), None) && o1 == Pass;
    assert Underlying(u2.key) == Key("User", IntId(2), None) && o2 == Pass;
    assert Key("User", IntId(1), None) in store.entities;
  }

  /** An explicit `id` pins the key's id; the instance still draws a sequence number. */
  method PinnedId() {
    var store := new Datastore();
    var users := new Builder("User", map[], map[], []);
    assert WithinDepth(map[], 1);
    var pinned, o1 := users.Generate(Overrides(Passed(Some(IntId(10))), Absent), true, store, 1);
    var next, o2 := users.Generate(NoOverrides, true, store, 1);
    assert Underlying(pinned.key) == Key("User", IntId(10), None) && o1 == Pass;
    assert Underlying(next.key) == Key("User", IntId(2), None) && o2 == Pass;
  }

  lemma SingleReference(props: Properties, name: string, p: KeyProxy)
    requires props == map[name := Ref(Proxy(p))]
    ensures ProxiesOf(props) == {p} && Dependencies(props) == {p.key}
    ensures ResolveProperties(props) == map[name := Ref(Plain(p.key))]
  {
    assert name in props && IsProxy(props[name]);
    forall q | q in ProxiesOf(props) ensures q == p {
    }
    forall k | k in Dependencies(props) ensures k == p.key {
    }
  }

  /** A single reference to a builder whose instances reference nothing resolves within
      one level and can create only the referenced key. */
  lemma ReferenceToLeaf(props: Properties, name: string, p: KeyProxy)
    requires props == map[name := Ref(Proxy(p))] && p.factory.defaults == map[]
    ensures WithinDepth(props, 1)
    ensures Created(props, 1) <= {p.key} && p.key in Dependencies(props)
    ensures ResolveProperties(props) == map[name := Ref(Plain(p.key))]
  {
    SingleReference(props, name, p);
    assert WithinDepth(p.factory.defaults, 0);
    assert CreatedVia(p, 0) == {p.key};
  }

  /** A post whose `author` property is a proxy to a user: creating the post from an
      empty store stores exactly the user and the post, the stored post refers to the
      user by plain key, and the post in memory keeps its proxy key. */
  method FirstPostCreatesAuthor(store: Datastore, posts: Builder, author: KeyProxy)
    requires store.entities == map[]
    requires posts.Valid() && posts.sequence == 1 && posts.modelName == "Post"
    requires posts.defaults == map["author" := Ref(Proxy(author))] && author.factory.defaults == map[]
    modifies store, posts
  {
    ReferenceToLeaf(posts.defaults, "author", author);
    var post, outcome := posts.Generate(NoOverrides, true, store, 1);
    var postKey := Key("Post", IntId(1), None);
    assert post.key == Proxy(KeyProxy(postKey, posts));
    assert outcome == Pass;
    ExactlyTwo(store.entities.Keys, postKey, Created(posts.defaults, 1), author.key);
    assert store.entities.Keys == {author.key, postKey};
    assert store.entities[postKey] == map["author" := Ref(Plain(author.key))];
  }

  /** Set reasoning for the scenario above: an own key and at most one created key. */
  lemma ExactlyTwo(keys: set<Key>, own: Key, created: set<Key>, dependency: Key)
    requires keys <= {own} + created && created <= {dependency}
    requires own in keys && dependency in keys
    ensures keys == {dependency, own}
  {
  }

  /** When the user is already stored, creating a post stores the post and nothing else. */
  method SecondPostReusesAuthor() {
    var store := new Datastore();
    var users := new Builder("User", map[], map[], []);
    assert WithinDepth(users.defaults, 1);
    var user, created := users.Generate(NoOverrides, true, store, 1);
    var userKey := Key("User", IntId(1), None);
    var author := KeyProxy(userKey, users);
    var posts := new Builder("Post", map["author" := Ref(Proxy(author))], map[], []);
    SingleReference(posts.defaults, "author", author);

    ghost var before := store.entities;
    assert userKey in before;
    var post, outcome := posts.Generate(NoOverrides, true, store, 0);
    var postKey := Key("Post", IntId(1), None);
    assert outcome == Pass;
    assert store.entities == before[postKey := map["author" := Ref(Plain(userKey))]];
  }

  /** Building, and getting through a proxy without create, leave the store alone. */
  method BuildTouchesNothing(store: Datastore, posts: Builder, author: KeyProxy)
    requires NoProxiesStored(store.entities) && posts.Valid()
    modifies store, posts
  {
    ghost var before := store.entities;
    var draft, built := posts.Generate(NoOverrides, false, store, 0);
    var inMemory, fetched := ProxyGet(author, false, store, 0);
    assert store.entities == before;
    assert draft.properties == posts.defaults && inMemory.key == Proxy(author);
  }
}
