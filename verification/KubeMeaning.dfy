/**
  What the rename and the patch of a kubeconfig preserve (tunstrap/kube.py),
  for every document, duplicate names and shared entries included.
*/
module KubeMeaning {
  import opened Wrappers
  import opened Kubeconfig

  lemma {:induction false} EntriesTail(items: seq<Val>)
    requires items != []
    ensures Entries(items[1..]) <= Entries(items)
    ensures items[0].Map? ==> items[0].d in Entries(items)
  {
    var tail := items[1..];
    forall d | d in Entries(tail) ensures d in Entries(items) {
      var i :| 0 <= i < |tail| && tail[i].Map? && tail[i].d == d;
      assert items[i + 1].d == d;
    }
  }

  lemma {:induction false} FirstIsEntry(h: Heap, items: seq<Val>, name: string)
    ensures First(h, items, name).Some? ==> First(h, items, name).value in Entries(items)
  {
  }

  // Lookups that only see unchanged names give what they gave.
  lemma {:induction false} FirstSame(h: Heap, h': Heap, items: seq<Val>, name: string)
    requires forall e :: e in Entries(items) ==> Get(h', e, Name) == Get(h, e, Name)
    ensures First(h', items, name) == First(h, items, name)
  {
    if items != [] {
      EntriesTail(items);
      FirstSame(h, h', items[1..], name);
    }
  }

  // Renaming one entry from `old` to a name nobody has: the new name finds it if the old one
  // did, and every third name finds what it found. Later entries may share the old name.
  lemma {:induction false} FirstRenamed(h: Heap, h': Heap, items: seq<Val>, x: Dict, old_: string, new_: string,
                                        n: string)
    requires forall e :: e in Entries(items) ==> Get(h', e, Name) == (if e == x then Str(new_) else Get(h, e, Name))
    requires Get(h, x, Name) == Str(old_) && First(h, items, new_).None?
    ensures First(h, items, old_) == Some(x) ==> First(h', items, new_) == Some(x)
    ensures n != old_ && n != new_ ==> First(h', items, n) == First(h, items, n)
  {
    if items != [] {
      EntriesTail(items);
      FirstRenamed(h, h', items[1..], x, old_, new_, n);
    }
  }

  ghost function CE(h: Heap, doc: Dict): set<Dict> { Entries(Section(h, doc, Contexts)) }
  ghost function KE(h: Heap, doc: Dict): set<Dict> { Entries(Section(h, doc, Clusters)) }
  ghost function UE(h: Heap, doc: Dict): set<Dict> { Entries(Section(h, doc, Users)) }
  ghost function CB(h: Heap, doc: Dict): set<Dict> { Bodies(h, Section(h, doc, Contexts), ContextKey) }
  ghost function KB(h: Heap, doc: Dict): set<Dict> { Bodies(h, Section(h, doc, Clusters), ClusterKey) }
  ghost function UB(h: Heap, doc: Dict): set<Dict> { Bodies(h, Section(h, doc, Users), UserKey) }

  lemma {:induction false} BodyOf(h: Heap, items: seq<Val>, key: Key, e: Dict)
    requires e in Entries(items) && Get(h, e, key).Map?
    ensures Get(h, e, key).d in Bodies(h, items, key)
  {
  }

  // Where the three entries and the body of a rename sit.
  lemma {:induction false} Places(h: Heap, doc: Dict, t: Triple, name: string)
    requires Renaming(h, doc, name) == Ok(t)
    ensures t.context in CE(h, doc) && t.body in CB(h, doc) && t.cluster in KE(h, doc) && t.user in UE(h, doc)
    ensures Get(h, t.context, Name) == Get(h, doc, CurrentContext) && Get(h, t.context, ContextKey) == Map(t.body)
    ensures Get(h, t.cluster, Name) == Str(t.oldCluster) && Get(h, t.user, Name) == Str(t.oldUser)
    ensures Get(h, t.body, ClusterKey) == Str(t.oldCluster) && Get(h, t.body, UserKey) == Str(t.oldUser)
  {
    FirstIsEntry(h, Section(h, doc, Contexts), Get(h, doc, CurrentContext).s);
    FirstIsEntry(h, Section(h, doc, Clusters), t.oldCluster);
    FirstIsEntry(h, Section(h, doc, Users), t.oldUser);
    BodyOf(h, Section(h, doc, Contexts), ContextKey, t.context);
  }

  // What the rename does to one mapping, by the place it has in the document.
  lemma {:induction false} RenamedAt(h: Heap, doc: Dict, t: Triple, name: string, d: Dict)
    requires Separate(h, doc) && Renaming(h, doc, name) == Ok(t) && d in h
    ensures d == doc ==> RenamedDict(h, doc, t, name, d) == h[d][CurrentContext := Str(name)]
    ensures d in CE(h, doc) ==>
              RenamedDict(h, doc, t, name, d) == (if d == t.context then h[d][Name := Str(name)] else h[d])
    ensures d in KE(h, doc) ==>
              RenamedDict(h, doc, t, name, d) == (if d == t.cluster then h[d][Name := Str(name)] else h[d])
    ensures d in UE(h, doc) ==>
              RenamedDict(h, doc, t, name, d) == (if d == t.user then h[d][Name := Str(name)] else h[d])
    ensures d in CB(h, doc) ==> RenamedDict(h, doc, t, name, d) == Repoint(h[d], t.oldCluster, t.oldUser, name)
    ensures d in KB(h, doc) || d in UB(h, doc) ==> RenamedDict(h, doc, t, name, d) == h[d]
  {
    Places(h, doc, t, name);
  }

  ghost predicate EntryFacts(h: Heap, h': Heap, es: set<Dict>, x: Dict, name: string, key: Key) {
    forall e :: e in es ==>
      Get(h', e, Name) == (if e == x then Str(name) else Get(h, e, Name)) && Get(h', e, key) == Get(h, e, key)
  }

  lemma {:induction false} RenamedDoc(h: Heap, doc: Dict, t: Triple, name: string)
    requires Separate(h, doc) && Renaming(h, doc, name) == Ok(t)
    ensures Get(Renamed(h, doc, t, name), doc, CurrentContext) == Str(name)
    ensures forall s :: s != CurrentContext ==> Get(Renamed(h, doc, t, name), doc, s) == Get(h, doc, s)
  {
    RenamedAt(h, doc, t, name, doc);
  }

  lemma {:induction false} RenamedContexts(h: Heap, doc: Dict, t: Triple, name: string)
    requires Separate(h, doc) && Renaming(h, doc, name) == Ok(t)
    ensures EntryFacts(h, Renamed(h, doc, t, name), CE(h, doc), t.context, name, ContextKey)
    ensures forall b :: b in CB(h, doc) ==>
              b in h && Renamed(h, doc, t, name)[b] == Repoint(h[b], t.oldCluster, t.oldUser, name)
  {
    forall e | e in CE(h, doc) || e in CB(h, doc) ensures e in h {}
    forall e | e in CE(h, doc) || e in CB(h, doc) { RenamedAt(h, doc, t, name, e); }
  }

  lemma {:induction false} RenamedClusters(h: Heap, doc: Dict, t: Triple, name: string)
    requires Separate(h, doc) && Renaming(h, doc, name) == Ok(t)
    ensures EntryFacts(h, Renamed(h, doc, t, name), KE(h, doc), t.cluster, name, ClusterKey)
    ensures forall b :: b in KB(h, doc) ==> b in h && Renamed(h, doc, t, name)[b] == h[b]
  {
    forall e | e in KE(h, doc) || e in KB(h, doc) ensures e in h {}
    forall e | e in KE(h, doc) || e in KB(h, doc) { RenamedAt(h, doc, t, name, e); }
  }

  lemma {:induction false} RenamedUsers(h: Heap, doc: Dict, t: Triple, name: string)
    requires Separate(h, doc) && Renaming(h, doc, name) == Ok(t)
    ensures EntryFacts(h, Renamed(h, doc, t, name), UE(h, doc), t.user, name, UserKey)
    ensures forall b :: b in UB(h, doc) ==> b in h && Renamed(h, doc, t, name)[b] == h[b]
  {
    forall e | e in UE(h, doc) || e in UB(h, doc) ensures e in h {}
    forall e | e in UE(h, doc) || e in UB(h, doc) { RenamedAt(h, doc, t, name, e); }
  }

  // Renaming within one section, as seen by its lookups.
  lemma {:induction false} SectionRenamed(h: Heap, h': Heap, items: seq<Val>, x: Dict, old_: string, name: string,
                                          key: Key, n: string)
    requires EntryFacts(h, h', Entries(items), x, name, key)
    requires Get(h, x, Name) == Str(old_) && First(h, items, name).None? && First(h, items, old_) == Some(x)
    ensures First(h', items, name) == Some(x)
    ensures n != old_ && n != name ==> First(h', items, n) == First(h, items, n)
  {
    FirstRenamed(h, h', items, x, old_, name, n);
  }

  // Where a cluster reference goes, and what the lookups of clusters give.
  lemma {:induction false} ClusterLookups(h: Heap, doc: Dict, t: Triple, name: string, n: string)
    requires Separate(h, doc) && Renaming(h, doc, name) == Ok(t)
    ensures Resolve(h, doc, Clusters, t.oldCluster) == Some(t.cluster) && Resolve(h, doc, Clusters, name).None?
    ensures Resolve(Renamed(h, doc, t, name), doc, Clusters, name) == Some(t.cluster)
    ensures n != t.oldCluster && n != name ==>
              Resolve(Renamed(h, doc, t, name), doc, Clusters, n) == Resolve(h, doc, Clusters, n)
  {
    var h' := Renamed(h, doc, t, name);
    Places(h, doc, t, name);
    RenamedDoc(h, doc, t, name);
    RenamedClusters(h, doc, t, name);
    SectionRenamed(h, h', Section(h, doc, Clusters), t.cluster, t.oldCluster, name, ClusterKey, n);
  }

  lemma {:induction false} UserLookups(h: Heap, doc: Dict, t: Triple, name: string, n: string)
    requires Separate(h, doc) && Renaming(h, doc, name) == Ok(t)
    ensures Resolve(h, doc, Users, t.oldUser) == Some(t.user) && Resolve(h, doc, Users, name).None?
    ensures Resolve(Renamed(h, doc, t, name), doc, Users, name) == Some(t.user)
    ensures n != t.oldUser && n != name ==>
              Resolve(Renamed(h, doc, t, name), doc, Users, n) == Resolve(h, doc, Users, n)
  {
    var h' := Renamed(h, doc, t, name);
    Places(h, doc, t, name);
    RenamedDoc(h, doc, t, name);
    RenamedUsers(h, doc, t, name);
    SectionRenamed(h, h', Section(h, doc, Users), t.user, t.oldUser, name, UserKey, n);
  }

  // What a reference reads after the rename.
  lemma {:induction false} RefAfter(h: Heap, doc: Dict, t: Triple, name: string, b: Dict)
    requires Separate(h, doc) && Renaming(h, doc, name) == Ok(t) && b in CB(h, doc)
    ensures var r := Get(h, b, ClusterKey);
            Get(Renamed(h, doc, t, name), b, ClusterKey) == if r == Str(t.oldCluster) then Str(name) else r
    ensures var r := Get(h, b, UserKey);
            Get(Renamed(h, doc, t, name), b, UserKey) == if r == Str(t.oldUser) then Str(name) else r
  {
    RenamedContexts(h, doc, t, name);
  }

  // Every reference of every context that resolved before the rename resolves to the same
  // entry afterwards.
  lemma {:induction false} ReferencesPreserved(h: Heap, doc: Dict, t: Triple, name: string, b: Dict, s: string, x: Dict)
    requires Separate(h, doc) && Renaming(h, doc, name) == Ok(t)
    requires b in CB(h, doc)
    ensures Get(h, b, ClusterKey) == Str(s) && Resolve(h, doc, Clusters, s) == Some(x) ==>
              var h' := Renamed(h, doc, t, name);
              Get(h', b, ClusterKey).Str? && Resolve(h', doc, Clusters, Get(h', b, ClusterKey).s) == Some(x)
    ensures Get(h, b, UserKey) == Str(s) && Resolve(h, doc, Users, s) == Some(x) ==>
              var h' := Renamed(h, doc, t, name);
              Get(h', b, UserKey).Str? && Resolve(h', doc, Users, Get(h', b, UserKey).s) == Some(x)
  {
    RefAfter(h, doc, t, name, b);
    ClusterLookups(h, doc, t, name, s);
    UserLookups(h, doc, t, name, s);
  }

  // A reference that dangled before still dangles, unless it already spelled the new name: then it
  // now finds the renamed entry.
  lemma {:induction false} ResolvabilityExact(h: Heap, doc: Dict, t: Triple, name: string, b: Dict, s: string)
    requires Separate(h, doc) && Renaming(h, doc, name) == Ok(t) && b in CB(h, doc)
    ensures Get(h, b, ClusterKey) == Str(s) ==>
              var r := Get(Renamed(h, doc, t, name), b, ClusterKey);
              r.Str? && (Resolve(Renamed(h, doc, t, name), doc, Clusters, r.s).Some?
                         <==> Resolve(h, doc, Clusters, s).Some? || s == name)
    ensures Get(h, b, UserKey) == Str(s) ==>
              var r := Get(Renamed(h, doc, t, name), b, UserKey);
              r.Str? && (Resolve(Renamed(h, doc, t, name), doc, Users, r.s).Some?
                         <==> Resolve(h, doc, Users, s).Some? || s == name)
  {
    RefAfter(h, doc, t, name, b);
    ClusterLookups(h, doc, t, name, s);
    UserLookups(h, doc, t, name, s);
  }

  // The selected context is still the same entry with the same body, and it still leads to the
  // same cluster and user entries; every other entry keeps its name and every body but the
  // repointed references its content.
  lemma {:induction false} SelectionPreserved(h: Heap, doc: Dict, t: Triple, name: string)
    requires Separate(h, doc) && Renaming(h, doc, name) == Ok(t)
    ensures var h' := Renamed(h, doc, t, name);
            && Resolve(h', doc, Contexts, name) == Some(t.context) && Get(h', t.context, ContextKey) == Map(t.body)
            && Get(h', t.body, ClusterKey) == Str(name) && Resolve(h', doc, Clusters, name) == Some(t.cluster)
            && Get(h', t.body, UserKey) == Str(name) && Resolve(h', doc, Users, name) == Some(t.user)
            && Get(h', t.cluster, ClusterKey) == Get(h, t.cluster, ClusterKey)
            && Get(h', t.user, UserKey) == Get(h, t.user, UserKey)
  {
    var h' := Renamed(h, doc, t, name);
    Places(h, doc, t, name);
    RenamedDoc(h, doc, t, name);
    RenamedContexts(h, doc, t, name);
    RenamedClusters(h, doc, t, name);
    RenamedUsers(h, doc, t, name);
    var current := Get(h, doc, CurrentContext).s;
    SectionRenamed(h, h', Section(h, doc, Contexts), t.context, current, name, ContextKey, current);
    RefAfter(h, doc, t, name, t.body);
    ClusterLookups(h, doc, t, name, name);
    UserLookups(h, doc, t, name, name);
  }

  // Nothing else is renamed, and no body loses or changes anything but a repointed reference.
  lemma {:induction false} RestUntouched(h: Heap, doc: Dict, t: Triple, name: string, d: Dict, key: Key)
    requires Separate(h, doc) && Renaming(h, doc, name) == Ok(t) && d in h
    requires d == doc ==> key != CurrentContext
    requires d in {t.context, t.cluster, t.user} ==> key != Name
    requires d in CB(h, doc) ==> key !in {ClusterKey, UserKey}
    ensures Get(Renamed(h, doc, t, name), d, key) == Get(h, d, key)
  {
    RenamedAt(h, doc, t, name, d);
    Places(h, doc, t, name);
  }

  // ---------------------------------------------------- parse, patch, rename

  // The body parse_kubeconfig returns is a cluster body of the document.
  lemma {:induction false} ViewBody(h: Heap, doc: Dict, v: View)
    requires Separate(h, doc) && Parse(h, doc) == Ok(v)
    ensures v.clusterBody in KB(h, doc)
  {
    ViewPlaces(h, doc, v);
  }

  // A mapping that is no cluster's body.
  ghost predicate Beside(h: Heap, doc: Dict, d: Dict) {
    || d == doc || d in CE(h, doc) || d in KE(h, doc) || d in UE(h, doc)
    || d in CB(h, doc) || d in UB(h, doc)
  }

  // Patching a cluster body moves no section, entry or context.
  lemma {:induction false} PatchedElsewhere(h: Heap, doc: Dict, v: View, port: string, tls: Option<string>,
                                            insecure: bool)
    requires Separate(h, doc) && Parse(h, doc) == Ok(v)
    ensures v.clusterBody in h && v.clusterBody in KB(h, doc)
    ensures var h' := Patched(h, v.clusterBody, port, tls, insecure);
            && h'.Keys == h.Keys
            && forall d, k :: Beside(h, doc, d) ==> Get(h', d, k) == Get(h, d, k)
  {
    ViewBody(h, doc, v);
  }

  lemma {:induction false} PatchedBodies(h: Heap, h': Heap, items: seq<Val>, key: Key)
    requires forall e :: e in Entries(items) ==> Get(h', e, key) == Get(h, e, key)
    ensures Bodies(h', items, key) == Bodies(h, items, key)
  {
  }

  lemma {:induction false} PatchedFacts(h: Heap, doc: Dict, v: View, port: string, tls: Option<string>, insecure: bool)
    requires Separate(h, doc) && Parse(h, doc) == Ok(v)
    ensures v.clusterBody in h
    ensures var h' := Patched(h, v.clusterBody, port, tls, insecure);
            && Separate(h', doc)
            && forall n :: Resolve(h', doc, Contexts, n) == Resolve(h, doc, Contexts, n)
                        && Resolve(h', doc, Clusters, n) == Resolve(h, doc, Clusters, n)
                        && Resolve(h', doc, Users, n) == Resolve(h, doc, Users, n)
  {
    PatchedElsewhere(h, doc, v, port, tls, insecure);
    var h' := Patched(h, v.clusterBody, port, tls, insecure);
    PatchedBodies(h, h', Section(h, doc, Contexts), ContextKey);
    PatchedBodies(h, h', Section(h, doc, Clusters), ClusterKey);
    PatchedBodies(h, h', Section(h, doc, Users), UserKey);
    forall n ensures Resolve(h', doc, Contexts, n) == Resolve(h, doc, Contexts, n)
                  && Resolve(h', doc, Clusters, n) == Resolve(h, doc, Clusters, n)
                  && Resolve(h', doc, Users, n) == Resolve(h, doc, Users, n) {
      FirstSame(h, h', Section(h, doc, Contexts), n);
      FirstSame(h, h', Section(h, doc, Clusters), n);
      FirstSame(h, h', Section(h, doc, Users), n);
    }
  }

  function Secured(ca: string, insecure: bool): string { if insecure then "" else ca }

  // The lookups a successful parse consists of.
  ghost predicate Parts(h: Heap, doc: Dict, v: View, userBody: Option<Dict>) {
    && v.context != "" && Get(h, doc, CurrentContext) == Str(v.context)
    && ContextRefs(h, doc, v.context) == Ok((v.cluster, v.user))
    && ClusterSection(h, doc, v.cluster) == Ok((v.clusterBody, v.server))
    && UserSection(h, doc, v.user) == Ok(userBody)
    && StringField(h, Some(v.clusterBody), CaData) == Ok(v.ca)
    && StringField(h, userBody, ClientCertData) == Ok(v.clientCert)
    && StringField(h, userBody, ClientKeyData) == Ok(v.clientKey)
  }

  lemma {:induction false} PartsGiveView(h: Heap, doc: Dict, v: View, userBody: Option<Dict>)
    requires Parts(h, doc, v, userBody)
    ensures Parse(h, doc) == Ok(v)
  {
  }

  lemma {:induction false} ViewGivesParts(h: Heap, doc: Dict, v: View) returns (userBody: Option<Dict>)
    requires Parse(h, doc) == Ok(v)
    ensures Parts(h, doc, v, userBody)
    ensures userBody.Some? ==> userBody.value in UB(h, doc)
  {
    userBody := UserSection(h, doc, v.user).value;
    ViewPlaces(h, doc, v);
  }

  // Two pictures that agree on a context entry's references agree on what they are.
  lemma {:induction false} SameRefs(h: Heap, h': Heap, doc: Dict, n: string, refs: (string, string))
    requires ContextRefs(h, doc, n) == Ok(refs)
    requires Resolve(h', doc, Contexts, n) == Resolve(h, doc, Contexts, n)
    requires forall d, k :: d in CE(h, doc) || d in CB(h, doc) ==> Get(h', d, k) == Get(h, d, k)
    ensures ContextRefs(h', doc, n) == Ok(refs)
  {
    FirstIsEntry(h, Section(h, doc, Contexts), n);
    BodyOf(h, Section(h, doc, Contexts), ContextKey, Resolve(h, doc, Contexts, n).value);
  }

  // After the patch the document still parses, to the same view but for server and CA.
  lemma {:induction false} PatchedParses(h: Heap, doc: Dict, v: View, port: string, tls: Option<string>, insecure: bool)
    requires Separate(h, doc) && Parse(h, doc) == Ok(v)
    ensures v.clusterBody in h
    ensures Parse(Patched(h, v.clusterBody, port, tls, insecure), doc)
         == Ok(v.(server := Url(port), ca := Secured(v.ca, insecure)))
  {
    PatchedFacts(h, doc, v, port, tls, insecure);
    PatchedElsewhere(h, doc, v, port, tls, insecure);
    var h' := Patched(h, v.clusterBody, port, tls, insecure);
    var userBody := ViewGivesParts(h, doc, v);
    ViewPlaces(h, doc, v);
    SameRefs(h, h', doc, v.context, (v.cluster, v.user));
    PatchedCluster(h, doc, v, port, tls, insecure);
    PartsGiveView(h', doc, v.(server := Url(port), ca := Secured(v.ca, insecure)), userBody);
  }

  lemma {:induction false} PatchedCluster(h: Heap, doc: Dict, v: View, port: string, tls: Option<string>,
                                          insecure: bool)
    requires Separate(h, doc) && Parse(h, doc) == Ok(v)
    ensures v.clusterBody in h
    ensures var h' := Patched(h, v.clusterBody, port, tls, insecure);
            && ClusterSection(h', doc, v.cluster) == Ok((v.clusterBody, Url(port)))
            && StringField(h', Some(v.clusterBody), CaData) == Ok(Secured(v.ca, insecure))
  {
    PatchedFacts(h, doc, v, port, tls, insecure);
    PatchedElsewhere(h, doc, v, port, tls, insecure);
    ViewPlaces(h, doc, v);
    PatchedFields(h, v.clusterBody, port, tls, insecure, v.ca);
  }

  // The body the patch writes: the local server, and the CA kept or gone.
  lemma {:induction false} PatchedFields(h: Heap, body: Dict, port: string, tls: Option<string>, insecure: bool,
                                         ca: string)
    requires body in h && StringField(h, Some(body), CaData) == Ok(ca)
    ensures var h' := Patched(h, body, port, tls, insecure);
            && Get(h', body, Server) == Str(Url(port)) && Url(port) != ""
            && StringField(h', Some(body), CaData) == Ok(Secured(ca, insecure))
  {
    assert Url(port)[0] == 'h';
  }

  // Where the entries and bodies behind a view sit.
  lemma {:induction false} ViewPlaces(h: Heap, doc: Dict, v: View)
    requires Parse(h, doc) == Ok(v)
    ensures var c := Resolve(h, doc, Contexts, v.context);
            && c.Some? && c.value in CE(h, doc) && Get(h, c.value, ContextKey).Map?
            && Get(h, c.value, ContextKey).d in CB(h, doc)
    ensures var k := Resolve(h, doc, Clusters, v.cluster);
            && k.Some? && k.value in KE(h, doc) && Get(h, k.value, ClusterKey) == Map(v.clusterBody)
            && v.clusterBody in KB(h, doc)
    ensures var u := Resolve(h, doc, Users, v.user);
            && u.Some? && u.value in UE(h, doc)
            && (Get(h, u.value, UserKey).Map? ==> Get(h, u.value, UserKey).d in UB(h, doc))
  {
    FirstIsEntry(h, Section(h, doc, Contexts), v.context);
    FirstIsEntry(h, Section(h, doc, Clusters), v.cluster);
    FirstIsEntry(h, Section(h, doc, Users), v.user);
    BodyOf(h, Section(h, doc, Contexts), ContextKey, Resolve(h, doc, Contexts, v.context).value);
    BodyOf(h, Section(h, doc, Clusters), ClusterKey, Resolve(h, doc, Clusters, v.cluster).value);
  }

  // On a document that parses, a name already taken is the only ground for a refusal.
  lemma {:induction false} OnlyReservedRefuses(h: Heap, doc: Dict, v: View, name: string)
    requires Parse(h, doc) == Ok(v)
    ensures Taken(h, doc, name) ==> Renaming(h, doc, name) == Err(Reserved)
    ensures !Taken(h, doc, name) ==>
              && Renaming(h, doc, name).Ok?
              && Renaming(h, doc, name).value.oldCluster == v.cluster
              && Renaming(h, doc, name).value.oldUser == v.user
  {
  }

  lemma {:induction false} RenamingOfView(h: Heap, doc: Dict, v: View, t: Triple, name: string)
    requires Parse(h, doc) == Ok(v) && Renaming(h, doc, name) == Ok(t)
    ensures Resolve(h, doc, Clusters, v.cluster) == Some(t.cluster) && Resolve(h, doc, Users, v.user) == Some(t.user)
    ensures t.oldCluster == v.cluster && t.oldUser == v.user
  {
  }

  lemma {:induction false} RefsToName(h: Heap, doc: Dict, c: Dict, b: Dict, name: string)
    requires Resolve(h, doc, Contexts, name) == Some(c) && Get(h, c, ContextKey) == Map(b) && name != ""
    requires Get(h, b, ClusterKey) == Str(name) && Get(h, b, UserKey) == Str(name)
    ensures ContextRefs(h, doc, name) == Ok((name, name))
  {
  }

  lemma {:induction false} RenamedClusterPart(h: Heap, doc: Dict, v: View, t: Triple, name: string,
                                              userBody: Option<Dict>)
    requires Separate(h, doc) && Parse(h, doc) == Ok(v) && Renaming(h, doc, name) == Ok(t)
    requires Parts(h, doc, v, userBody)
    ensures ClusterSection(Renamed(h, doc, t, name), doc, name) == Ok((v.clusterBody, v.server))
    ensures StringField(Renamed(h, doc, t, name), Some(v.clusterBody), CaData) == Ok(v.ca)
  {
    RenamingOfView(h, doc, v, t, name);
    ClusterLookups(h, doc, t, name, name);
    Places(h, doc, t, name);
    RenamedClusters(h, doc, t, name);
    ViewBody(h, doc, v);
  }

  lemma {:induction false} RenamedUserPart(h: Heap, doc: Dict, v: View, t: Triple, name: string, userBody: Option<Dict>)
    requires Separate(h, doc) && Parse(h, doc) == Ok(v) && Renaming(h, doc, name) == Ok(t)
    requires Parts(h, doc, v, userBody) && (userBody.Some? ==> userBody.value in UB(h, doc))
    ensures UserSection(Renamed(h, doc, t, name), doc, name) == Ok(userBody)
    ensures StringField(Renamed(h, doc, t, name), userBody, ClientCertData) == Ok(v.clientCert)
    ensures StringField(Renamed(h, doc, t, name), userBody, ClientKeyData) == Ok(v.clientKey)
  {
    RenamingOfView(h, doc, v, t, name);
    UserLookups(h, doc, t, name, name);
    Places(h, doc, t, name);
    RenamedUsers(h, doc, t, name);
  }

  lemma {:induction false} RenamedSections(h: Heap, doc: Dict, v: View, t: Triple, name: string, userBody: Option<Dict>)
    requires Separate(h, doc) && Parse(h, doc) == Ok(v) && Renaming(h, doc, name) == Ok(t) && name != ""
    requires Parts(h, doc, v, userBody) && (userBody.Some? ==> userBody.value in UB(h, doc))
    ensures Parts(Renamed(h, doc, t, name), doc, v.(context := name, cluster := name, user := name), userBody)
  {
    SelectionPreserved(h, doc, t, name);
    RefsToName(Renamed(h, doc, t, name), doc, t.context, t.body, name);
    RenamedDoc(h, doc, t, name);
    RenamedClusterPart(h, doc, v, t, name, userBody);
    RenamedUserPart(h, doc, v, t, name, userBody);
  }

  // Re-parsing a renamed document gives the same view under the new name.
  lemma {:induction false} RenamedParses(h: Heap, doc: Dict, v: View, t: Triple, name: string)
    requires Separate(h, doc) && Parse(h, doc) == Ok(v) && Renaming(h, doc, name) == Ok(t) && name != ""
    ensures Parse(Renamed(h, doc, t, name), doc) == Ok(v.(context := name, cluster := name, user := name))
  {
    var userBody := ViewGivesParts(h, doc, v);
    RenamedSections(h, doc, v, t, name, userBody);
    PartsGiveView(Renamed(h, doc, t, name), doc, v.(context := name, cluster := name, user := name), userBody);
  }

  // The whole pipeline: parse, patch, rename, parse again. All three names are the generated
  // one, the server is the local forward, the credentials are the original ones and the CA is
  // kept, or gone when verification is off; a taken name is the only refusal.
  lemma {:induction false} PatchedAndRenamed(h: Heap, doc: Dict, v: View, port: string, tls: Option<string>,
                                             insecure: bool, node: string, target: string)
    requires Separate(h, doc) && Parse(h, doc) == Ok(v)
    ensures v.clusterBody in h
    ensures var p := Patched(h, v.clusterBody, port, tls, insecure);
            var name := NewName(node, target);
            && (Taken(h, doc, name) ==> Renaming(p, doc, name) == Err(Reserved))
            && (!Taken(h, doc, name) ==>
                  && Renaming(p, doc, name).Ok?
                  && Parse(Renamed(p, doc, Renaming(p, doc, name).value, name), doc)
                     == Ok(View(v.clusterBody, name, name, name, Url(port),
                                Secured(v.ca, insecure), v.clientCert, v.clientKey)))
  {
    PatchedFacts(h, doc, v, port, tls, insecure);
    PatchedParses(h, doc, v, port, tls, insecure);
    var p := Patched(h, v.clusterBody, port, tls, insecure);
    var name := NewName(node, target);
    var w := v.(server := Url(port), ca := Secured(v.ca, insecure));
    assert Taken(p, doc, name) == Taken(h, doc, name);
    OnlyReservedRefuses(p, doc, w, name);
    if !Taken(h, doc, name) {
      RenamedParses(p, doc, w, Renaming(p, doc, name).value, name);
    }
  }

  // The rename leaves the patched cluster body as the patch has written it.
  lemma {:induction false} BodyDelivered(h: Heap, doc: Dict, v: View, port: string, tls: Option<string>,
                                         insecure: bool, t: Triple, name: string)
    requires Separate(h, doc) && Parse(h, doc) == Ok(v) && v.clusterBody in h
    requires Renaming(Patched(h, v.clusterBody, port, tls, insecure), doc, name) == Ok(t)
    ensures var p := Patched(h, v.clusterBody, port, tls, insecure);
            Renamed(p, doc, t, name)[v.clusterBody] == PatchBody(h[v.clusterBody], port, tls, insecure)
  {
    var p := Patched(h, v.clusterBody, port, tls, insecure);
    ViewBody(h, doc, v);
    PatchedFacts(h, doc, v, port, tls, insecure);
    PatchedElsewhere(h, doc, v, port, tls, insecure);
    PatchedBodies(h, p, Section(h, doc, Clusters), ClusterKey);
    RenamedAt(p, doc, t, name, v.clusterBody);
  }
}
