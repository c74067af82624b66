/**
  The code of tunstrap/kube.py that walks and rewrites the live document, proved
  against the pictures of Kubeconfig. `ds` is the set of the document's mappings.
*/
module KubeRewrite {
  import opened Wrappers
  import opened Kubeconfig
  import opened KubeMeaning

  method Lookup(d: Dict, key: Key) returns (v: Val)
    ensures v == if key in d.m then d.m[key] else Null
  {
    v := if key in d.m then d.m[key] else Null;
  }

  // _find_named
  method FindNamed(v: Val, name: string, ghost ds: set<Dict>) returns (r: Option<Dict>)
    requires Entries(Items(v)) <= ds
    ensures r == First(Snap(ds), Items(v), name)
  {
    if !v.List? { return None; }
    ghost var h := Snap(ds);
    var i := 0;
    while i < |v.items|
      invariant 0 <= i <= |v.items|
      invariant First(h, v.items, name) == First(h, v.items[i..], name)
    {
      if v.items[i].Map? {
        assert v.items[i].d in Entries(v.items);
        var n := Lookup(v.items[i].d, Name);
        if n == Str(name) { return Some(v.items[i].d); }
      }
      i := i + 1;
    }
    return None;
  }

  ghost predicate Sections(h: Heap, doc: Dict) {
    && doc in h
    && CE(h, doc) <= h.Keys && KE(h, doc) <= h.Keys && UE(h, doc) <= h.Keys
    && CB(h, doc) <= h.Keys && KB(h, doc) <= h.Keys && UB(h, doc) <= h.Keys
  }

  // parse_kubeconfig, from the loaded root mapping on.
  method ParseKubeconfig(doc: Dict, ghost ds: set<Dict>) returns (r: Result<View, Defect>)
    requires Sections(Snap(ds), doc)
    ensures r == Parse(Snap(ds), doc)
  {
    var current := Lookup(doc, CurrentContext);
    if !current.Str? || current.s == "" { return Err(NoCurrentContext); }
    var refs := FindRefs(doc, current.s, ds);
    if refs.Err? { return Err(refs.error); }
    var (cluster, user) := refs.value;

    var section := FindCluster(doc, cluster, ds);
    if section.Err? { return Err(section.error); }
    var (body, server) := section.value;
    var userBody := FindUser(doc, user, ds);
    if userBody.Err? { return Err(userBody.error); }
    var ca := FieldOf(Some(body), CaData, ds);
    var cert := FieldOf(userBody.value, ClientCertData, ds);
    var key := FieldOf(userBody.value, ClientKeyData, ds);
    if ca.Err? || cert.Err? || key.Err? { return Err(FieldNotString); }
    return Ok(View(body, current.s, cluster, user, server, ca.value, cert.value, key.value));
  }

  method FindRefs(doc: Dict, current: string, ghost ds: set<Dict>) returns (r: Result<(string, string), Defect>)
    requires Sections(Snap(ds), doc)
    ensures r == ContextRefs(Snap(ds), doc, current)
  {
    var contexts := Lookup(doc, Contexts);
    var ctx := FindNamed(contexts, current, ds);
    if ctx.None? { return Err(ContextMissing); }
    FirstIsEntry(Snap(ds), Items(contexts), current);
    var body := Lookup(ctx.value, ContextKey);
    if !body.Map? { return Err(BadRef); }
    BodyOf(Snap(ds), Items(contexts), ContextKey, ctx.value);
    var c := Lookup(body.d, ClusterKey);
    var u := Lookup(body.d, UserKey);
    if !c.Str? || c.s == "" || !u.Str? || u.s == "" { return Err(BadRef); }
    return Ok((c.s, u.s));
  }

  method FindCluster(doc: Dict, cluster: string, ghost ds: set<Dict>) returns (r: Result<(Dict, string), Defect>)
    requires Sections(Snap(ds), doc)
    ensures r == ClusterSection(Snap(ds), doc, cluster)
    ensures r.Ok? ==> r.value.0 in ds
  {
    var clusters := Lookup(doc, Clusters);
    var entry := FindNamed(clusters, cluster, ds);
    if entry.None? { return Err(ClusterMissing); }
    FirstIsEntry(Snap(ds), Items(clusters), cluster);
    var body := Lookup(entry.value, ClusterKey);
    if !body.Map? { return Err(NoServer); }
    BodyOf(Snap(ds), Items(clusters), ClusterKey, entry.value);
    var server := Lookup(body.d, Server);
    if !server.Str? || server.s == "" { return Err(NoServer); }
    return Ok((body.d, server.s));
  }

  method FindUser(doc: Dict, user: string, ghost ds: set<Dict>) returns (r: Result<Option<Dict>, Defect>)
    requires Sections(Snap(ds), doc)
    ensures r == UserSection(Snap(ds), doc, user)
    ensures r.Ok? && r.value.Some? ==> r.value.value in ds
  {
    var users := Lookup(doc, Users);
    var entry := FindNamed(users, user, ds);
    if entry.None? { return Err(UserMissing); }
    FirstIsEntry(Snap(ds), Items(users), user);
    var body := Lookup(entry.value, UserKey);
    if !body.Map? { return Ok(None); }
    BodyOf(Snap(ds), Items(users), UserKey, entry.value);
    return Ok(Some(body.d));
  }

  // _string_field
  method FieldOf(body: Option<Dict>, key: Key, ghost ds: set<Dict>) returns (r: Result<string, Defect>)
    requires body.Some? ==> body.value in ds
    ensures r == StringField(Snap(ds), body, key)
  {
    if body.None? { return Ok(""); }
    var v := Lookup(body.value, key);
    match v
    case Null => return Ok("");
    case Str(s) => return Ok(s);
    case _ => return Err(FieldNotString);
  }

  // patch_view
  method PatchView(body: Dict, port: string, tls: Option<string>, insecure: bool, ghost ds: set<Dict>)
    requires body in ds
    modifies body
    ensures Snap(ds) == Patched(old(Snap(ds)), body, port, tls, insecure)
  {
    body.m := body.m[Server := Str(Url(port))];
    if insecure {
      body.m := body.m[InsecureSkip := Flag(true)];
      body.m := body.m - {CaData};
      body.m := body.m - {TlsServerName};
    } else if tls.Some? {
      body.m := body.m[TlsServerName := Str(tls.value)];
    }
    assert body.m == PatchBody(old(body.m), port, tls, insecure);
  }

  // The context bodies reached through the first n entries, the selected entry left out.
  ghost function Reached(h: Heap, items: seq<Val>, selected: Dict): set<Dict> {
    set e | e in Entries(items) && e != selected && Get(h, e, ContextKey).Map? :: Get(h, e, ContextKey).d
  }

  ghost function Swept(h: Heap, bodies: set<Dict>, oldCluster: string, oldUser: string, name: string): Heap {
    map d | d in h :: if d in bodies then Repoint(h[d], oldCluster, oldUser, name) else h[d]
  }

  // One context body of the sweep.
  method RepointBody(body: Dict, oldCluster: string, oldUser: string, name: string)
    modifies body
    ensures body.m == Repoint(old(body.m), oldCluster, oldUser, name)
  {
    var c := Lookup(body, ClusterKey);
    if c == Str(oldCluster) { body.m := body.m[ClusterKey := Str(name)]; }
    var u := Lookup(body, UserKey);
    if u == Str(oldUser) { body.m := body.m[UserKey := Str(name)]; }
  }

  // One entry of the sweep; h is the picture before it began.
  method SweepEntry(item: Val, selected: Dict, oldCluster: string, oldUser: string, name: string,
                    ghost h: Heap, ghost items: seq<Val>, ghost i: nat, ghost ds: set<Dict>)
    requires i < |items| && item == items[i] && h.Keys == ds
    requires Entries(items) <= ds && Bodies(h, items, ContextKey) <= ds
    requires Bodies(h, items, ContextKey) !! Entries(items)
    requires Snap(ds) == Swept(h, Reached(h, items[..i], selected), oldCluster, oldUser, name)
    modifies ds
    ensures Snap(ds) == Swept(h, Reached(h, items[..i + 1], selected), oldCluster, oldUser, name)
  {
    ReachedOne(h, items, i, selected);
    ghost var done := Reached(h, items[..i], selected);
    if item.Map? && item.d != selected {
      var entry := item.d;
      assert entry in Entries(items);
      assert entry.m == Snap(ds)[entry] == h[entry];
      var body := Lookup(entry, ContextKey);
      if body.Map? {
        BodyOf(h, items, ContextKey, entry);
        RepointBody(body.d, oldCluster, oldUser, name);
        SweptOne(h, done, body.d, oldCluster, oldUser, name);
        assert Snap(ds) == Swept(h, done, oldCluster, oldUser, name)[body.d := body.d.m];
      }
    }
  }

  // _sweep_shared_refs
  method SweepSharedRefs(items: seq<Val>, selected: Dict, oldCluster: string, oldUser: string, name: string,
                         ghost ds: set<Dict>)
    requires Entries(items) <= ds && Bodies(Snap(ds), items, ContextKey) <= ds
    requires Bodies(Snap(ds), items, ContextKey) !! Entries(items)
    modifies ds
    ensures Snap(ds) == Swept(old(Snap(ds)), Reached(old(Snap(ds)), items, selected), oldCluster, oldUser, name)
  {
    ghost var h := Snap(ds);
    var i := 0;
    assert Snap(ds) == Swept(h, Reached(h, items[..0], selected), oldCluster, oldUser, name);
    while i < |items|
      invariant 0 <= i <= |items|
      invariant Snap(ds) == Swept(h, Reached(h, items[..i], selected), oldCluster, oldUser, name)
    {
      SweepEntry(items[i], selected, oldCluster, oldUser, name, h, items, i, ds);
      i := i + 1;
    }
    assert items[..i] == items;
  }

  // Some entry other than the selected one has this context body.
  ghost predicate Shared(h: Heap, items: seq<Val>, selected: Dict, d: Dict) {
    exists j :: 0 <= j < |items| && LeadsTo(h, items[j], selected, d)
  }

  ghost predicate LeadsTo(h: Heap, item: Val, selected: Dict, d: Dict) {
    item.Map? && item.d != selected && Get(h, item.d, ContextKey) == Map(d)
  }

  // The sweep, key by key: in the body of every entry but the selected one the two references change
  // when they spell the old names, and nothing else does.
  lemma {:induction false} SweptExactly(h: Heap, items: seq<Val>, selected: Dict, oldCluster: string, oldUser: string,
                                        name: string, d: Dict, key: Key)
    requires d in h
    ensures var x, after := Get(h, d, key), Swept(h, Reached(h, items, selected), oldCluster, oldUser, name);
            Get(after, d, key) ==
            if Shared(h, items, selected, d) && ((key == ClusterKey && x == Str(oldCluster))
                                                 || (key == UserKey && x == Str(oldUser)))
            then Str(name) else x
  {
    if Shared(h, items, selected, d) {
      var j :| 0 <= j < |items| && LeadsTo(h, items[j], selected, d);
      assert items[j].d in Entries(items);
    }
    if d in Reached(h, items, selected) {
      var e :| e in Entries(items) && e != selected && Get(h, e, ContextKey) == Map(d);
      var j :| 0 <= j < |items| && items[j].Map? && items[j].d == e;
      assert LeadsTo(h, items[j], selected, d);
    }
  }

  lemma {:induction false} SweptOne(h: Heap, done: set<Dict>, d: Dict, oldCluster: string, oldUser: string,
                                    name: string)
    requires d in h
    ensures var sofar := Swept(h, done, oldCluster, oldUser, name);
            sofar[d := Repoint(sofar[d], oldCluster, oldUser, name)] == Swept(h, done + {d}, oldCluster, oldUser, name)
  {
    RepointTwice(h[d], oldCluster, oldUser, name);
  }

  lemma {:induction false} RepointTwice(m: map<Key, Val>, oldCluster: string, oldUser: string, name: string)
    ensures var once := Repoint(m, oldCluster, oldUser, name);
            Repoint(once, oldCluster, oldUser, name) == once
  {
  }

  lemma {:induction false} ReachedOne(h: Heap, items: seq<Val>, i: nat, selected: Dict)
    requires i < |items|
    ensures Reached(h, items[..i], selected) <= Bodies(h, items, ContextKey)
    ensures Reached(h, items[..i + 1], selected)
         == Reached(h, items[..i], selected)
            + (if items[i].Map? && items[i].d != selected && Get(h, items[i].d, ContextKey).Map?
               then {Get(h, items[i].d, ContextKey).d} else {})
  {
    var a, b := items[..i], items[..i + 1];
    forall e | e in Entries(b) ensures e in Entries(a) || (items[i].Map? && e == items[i].d) {
      var k :| 0 <= k < |b| && b[k].Map? && b[k].d == e;
      if k < i { assert a[k] == b[k]; }
    }
    forall e | e in Entries(a) ensures e in Entries(b) && e in Entries(items) {
      var k :| 0 <= k < |a| && a[k].Map? && a[k].d == e;
      assert b[k] == a[k] && items[k] == a[k];
    }
    if items[i].Map? { assert b[i] == items[i] && items[i].d in Entries(b); }
  }

  // rename_identities: a refusal changes nothing; otherwise the document is the renamed one.
  method RenameIdentities(doc: Dict, node: string, target: string, ghost ds: set<Dict>)
    returns (r: Result<string, Defect>)
    requires Separate(Snap(ds), doc)
    modifies ds
    ensures r.Err? ==> Snap(ds) == old(Snap(ds)) && Renaming(old(Snap(ds)), doc, NewName(node, target)) == Err(r.error)
    ensures r.Ok? ==>
              && r.value == NewName(node, target)
              && Renaming(old(Snap(ds)), doc, r.value).Ok?
              && Snap(ds) == Renamed(old(Snap(ds)), doc, Renaming(old(Snap(ds)), doc, r.value).value, r.value)
  {
    ghost var h := Snap(ds);
    var name := NewName(node, target);
    var found := FindTriple(doc, name, ds);
    if found.Err? { return Err(found.error); }
    var t := found.value;
    Places(h, doc, t, name);

    Assign(doc, t, name, ds);

    var contexts := Lookup(doc, Contexts);
    ghost var mid := Snap(ds);
    SameBodies(h, mid, doc, t, name);
    SweepSharedRefs(Items(contexts), t.context, t.oldCluster, t.oldUser, name, ds);
    SweptIsRenamed(h, mid, doc, t, name);
    return Ok(name);
  }

  // The picture after the direct assignments, before the sweep.
  ghost predicate Assigned(h: Heap, mid: Heap, doc: Dict, t: Triple, name: string) {
    && mid.Keys == h.Keys
    && forall d :: d in h ==>
         mid[d] == if d == doc then h[d][CurrentContext := Str(name)]
                   else if d in {t.context, t.cluster, t.user} then h[d][Name := Str(name)]
                   else if d == t.body then h[d][ClusterKey := Str(name)][UserKey := Str(name)]
                   else h[d]
  }

  method Assign(doc: Dict, t: Triple, name: string, ghost ds: set<Dict>)
    requires {doc, t.context, t.body, t.cluster, t.user} <= ds
    requires doc != t.context && doc != t.body && doc != t.cluster && doc != t.user
    requires t.context != t.body && t.context != t.cluster && t.context != t.user
    requires t.body != t.cluster && t.body != t.user && t.cluster != t.user
    modifies doc, t.context, t.body, t.cluster, t.user
    ensures Assigned(old(Snap(ds)), Snap(ds), doc, t, name)
  {
    t.context.m := t.context.m[Name := Str(name)];
    t.body.m := t.body.m[ClusterKey := Str(name)];
    t.body.m := t.body.m[UserKey := Str(name)];
    t.cluster.m := t.cluster.m[Name := Str(name)];
    t.user.m := t.user.m[Name := Str(name)];
    doc.m := doc.m[CurrentContext := Str(name)];
  }

  lemma {:induction false} SameBodies(h: Heap, mid: Heap, doc: Dict, t: Triple, name: string)
    requires Separate(h, doc) && Renaming(h, doc, name) == Ok(t) && Assigned(h, mid, doc, t, name)
    ensures Section(mid, doc, Contexts) == Section(h, doc, Contexts)
    ensures Bodies(mid, Section(h, doc, Contexts), ContextKey) == CB(h, doc)
    ensures Reached(mid, Section(h, doc, Contexts), t.context) + {t.body} == CB(h, doc)
  {
    Places(h, doc, t, name);
    forall e | e in CE(h, doc) ensures Get(mid, e, ContextKey) == Get(h, e, ContextKey) {}
  }

  lemma {:induction false} SweptIsRenamed(h: Heap, mid: Heap, doc: Dict, t: Triple, name: string)
    requires Separate(h, doc) && Renaming(h, doc, name) == Ok(t) && Assigned(h, mid, doc, t, name)
    ensures Swept(mid, Reached(mid, Section(h, doc, Contexts), t.context), t.oldCluster, t.oldUser, name)
         == Renamed(h, doc, t, name)
  {
    SameBodies(h, mid, doc, t, name);
    var bodies := Reached(mid, Section(h, doc, Contexts), t.context);
    forall d | d in h
      ensures Swept(mid, bodies, t.oldCluster, t.oldUser, name)[d] == RenamedDict(h, doc, t, name, d)
    {
      SweptAt(h, mid, doc, t, name, bodies, d);
    }
  }

  lemma {:induction false} SweptAt(h: Heap, mid: Heap, doc: Dict, t: Triple, name: string, bodies: set<Dict>, d: Dict)
    requires Separate(h, doc) && Renaming(h, doc, name) == Ok(t) && Assigned(h, mid, doc, t, name)
    requires bodies + {t.body} == CB(h, doc) && d in h
    ensures (if d in bodies then Repoint(mid[d], t.oldCluster, t.oldUser, name) else mid[d])
         == RenamedDict(h, doc, t, name, d)
  {
    Places(h, doc, t, name);
    RenamedAt(h, doc, t, name, d);
    BodyAssigned(h[t.body], t.oldCluster, t.oldUser, name);
  }

  // Assigning both references of the selected body is repointing it, and repointing again adds nothing.
  lemma {:induction false} BodyAssigned(m: map<Key, Val>, oldCluster: string, oldUser: string, name: string)
    ensures ClusterKey in m && m[ClusterKey] == Str(oldCluster) && UserKey in m && m[UserKey] == Str(oldUser) ==>
              var twice := m[ClusterKey := Str(name)][UserKey := Str(name)];
              twice == Repoint(m, oldCluster, oldUser, name) && Repoint(twice, oldCluster, oldUser, name) == twice
  {
  }

  method FindSelected(doc: Dict, ghost ds: set<Dict>) returns (r: Result<Selection, Defect>)
    requires Sections(Snap(ds), doc)
    ensures r == Selected(Snap(ds), doc)
  {
    var current := Lookup(doc, CurrentContext);
    if !current.Str? { return Err(NoCurrentContext); }
    var contexts := Lookup(doc, Contexts);
    var ctx := FindNamed(contexts, current.s, ds);
    if ctx.None? { return Err(ContextMissing); }
    FirstIsEntry(Snap(ds), Items(contexts), current.s);
    var body := Lookup(ctx.value, ContextKey);
    if !body.Map? { return Err(BodyNotMapping); }
    BodyOf(Snap(ds), Items(contexts), ContextKey, ctx.value);
    var c := Lookup(body.d, ClusterKey);
    var u := Lookup(body.d, UserKey);
    if !c.Str? || !u.Str? { return Err(BadRef); }
    return Ok(Selection(ctx.value, body.d, c.s, u.s));
  }

  // The guard of the reserved names.
  method IsTaken(doc: Dict, name: string, ghost ds: set<Dict>) returns (taken: bool)
    requires Sections(Snap(ds), doc)
    ensures taken == Taken(Snap(ds), doc, name)
  {
    var contexts := Lookup(doc, Contexts);
    var clusters := Lookup(doc, Clusters);
    var users := Lookup(doc, Users);
    var a := FindNamed(contexts, name, ds);
    var b := FindNamed(clusters, name, ds);
    var c := FindNamed(users, name, ds);
    return a.Some? || b.Some? || c.Some?;
  }

  // Everything rename_identities decides before it changes anything.
  method FindTriple(doc: Dict, name: string, ghost ds: set<Dict>) returns (r: Result<Triple, Defect>)
    requires Sections(Snap(ds), doc)
    ensures r == Renaming(Snap(ds), doc, name)
  {
    var selected := FindSelected(doc, ds);
    if selected.Err? { return Err(selected.error); }
    var Selection(ctx, body, c, u) := selected.value;
    var taken := IsTaken(doc, name, ds);
    if taken { return Err(Reserved); }
    var clusters := Lookup(doc, Clusters);
    var users := Lookup(doc, Users);
    var ce := FindNamed(clusters, c, ds);
    if ce.None? { return Err(ClusterMissing); }
    var ue := FindNamed(users, u, ds);
    if ue.None? { return Err(UserMissing); }
    return Ok(Triple(ctx, body, ce.value, ue.value, c, u));
  }
}
