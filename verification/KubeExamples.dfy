/**
  Two small kubeconfigs at which what tunstrap/kube.py does differs from what a
  reader may expect: an upstream insecure-skip-tls-verify that survives the
  secure patch, and a dangling reference that the rename makes resolve.
*/
module KubeExamples {
  import opened Wrappers
  import opened Kubeconfig
  import opened KubeMeaning
  import opened KubeRewrite
  import opened KubeTargets

  // The mappings of a document with two contexts, one cluster and one user without a body.
  datatype Nodes = Nodes(
    doc: Dict, context: Dict, body: Dict, other: Dict, otherBody: Dict, cluster: Dict, clusterBody: Dict, user: Dict)

  ghost predicate Distinct(n: Nodes) {
    {n.doc} !! {n.context, n.other} !! {n.cluster} !! {n.user} !! {n.body, n.otherBody} !! {n.clusterBody}
    && n.context != n.other && n.body != n.otherBody
  }

  // Context a is current; context b refers to a cluster that is not there, by the name the rename
  // for node n and target t generates. The upstream cluster is not to be verified.
  ghost predicate Shows(h: Heap, n: Nodes) {
    && h.Keys == {n.doc, n.context, n.body, n.other, n.otherBody, n.cluster, n.clusterBody, n.user}
    && Get(h, n.doc, CurrentContext) == Str("a")
    && Get(h, n.doc, Contexts) == List([Map(n.context), Map(n.other)])
    && Get(h, n.doc, Clusters) == List([Map(n.cluster)]) && Get(h, n.doc, Users) == List([Map(n.user)])
    && Get(h, n.context, Name) == Str("a") && Get(h, n.context, ContextKey) == Map(n.body)
    && Get(h, n.body, ClusterKey) == Str("c") && Get(h, n.body, UserKey) == Str("u")
    && Get(h, n.other, Name) == Str("b") && Get(h, n.other, ContextKey) == Map(n.otherBody)
    && Get(h, n.otherBody, ClusterKey) == Str(NewName("n", "t"))
    && Get(h, n.cluster, Name) == Str("c") && Get(h, n.cluster, ClusterKey) == Map(n.clusterBody)
    && Get(h, n.clusterBody, Server) == Str("s") && Get(h, n.clusterBody, InsecureSkip) == Flag(true)
    && Get(h, n.clusterBody, CaData) == Null
    && Get(h, n.user, Name) == Str("u") && Get(h, n.user, UserKey) == Null
  }

  // There is such a document, on any eight mappings.
  lemma {:induction false} Written(n: Nodes) returns (h: Heap)
    requires Distinct(n)
    ensures Shows(h, n)
  {
    h := Filled(n,
                map[CurrentContext := Str("a"), Contexts := List([Map(n.context), Map(n.other)]),
                    Clusters := List([Map(n.cluster)]), Users := List([Map(n.user)])],
                map[Name := Str("a"), ContextKey := Map(n.body)],
                map[ClusterKey := Str("c"), UserKey := Str("u")],
                map[Name := Str("b"), ContextKey := Map(n.otherBody)],
                map[ClusterKey := Str(NewName("n", "t")), UserKey := Str("u")],
                map[Name := Str("c"), ClusterKey := Map(n.clusterBody)],
                map[Server := Str("s"), InsecureSkip := Flag(true)],
                map[Name := Str("u")]);
  }

  lemma {:induction false} Filled(n: Nodes, root: map<Key, Val>, context: map<Key, Val>, body: map<Key, Val>,
                                  other: map<Key, Val>, otherBody: map<Key, Val>, cluster: map<Key, Val>,
                                  clusterBody: map<Key, Val>, user: map<Key, Val>)
    returns (h: Heap)
    requires Distinct(n)
    ensures h.Keys == {n.doc, n.context, n.body, n.other, n.otherBody, n.cluster, n.clusterBody, n.user}
    ensures h[n.doc] == root && h[n.context] == context && h[n.body] == body && h[n.other] == other
    ensures h[n.otherBody] == otherBody && h[n.cluster] == cluster && h[n.clusterBody] == clusterBody
    ensures h[n.user] == user
  {
    var l, r := Four(n.doc, root, n.context, context, n.body, body, n.other, other),
                Four(n.otherBody, otherBody, n.cluster, cluster, n.clusterBody, clusterBody, n.user, user);
    h := l + r;
  }

  function Four(a: Dict, ma: map<Key, Val>, b: Dict, mb: map<Key, Val>, c: Dict, mc: map<Key, Val>,
                d: Dict, md: map<Key, Val>): (h: Heap)
    requires a != b && a != c && a != d && b != c && b != d && c != d
    ensures h.Keys == {a, b, c, d} && h[a] == ma && h[b] == mb && h[c] == mc && h[d] == md
  {
    map[a := ma, b := mb, c := mc, d := md]
  }

  lemma {:induction false} NameIsLong()
    ensures NewName("n", "t") != "a" && NewName("n", "t") != "b" && NewName("n", "t") != "c"
    ensures NewName("n", "t") != "u"
  {
    assert |NewName("n", "t")| > 9;
  }

  lemma {:induction false} OneEntry(h: Heap, d: Dict, name: string)
    ensures Entries([Map(d)]) == {d}
    ensures First(h, [Map(d)], name) == if Get(h, d, Name) == Str(name) then Some(d) else None
  {
    assert [Map(d)][1..] == [];
    assert [Map(d)][0].d in Entries([Map(d)]);
  }

  lemma {:induction false} TwoEntries(h: Heap, d: Dict, e: Dict, name: string)
    ensures Entries([Map(d), Map(e)]) == {d, e}
    ensures First(h, [Map(d), Map(e)], name)
         == if Get(h, d, Name) == Str(name) then Some(d) else if Get(h, e, Name) == Str(name) then Some(e) else None
  {
    assert [Map(d), Map(e)][1..] == [Map(e)];
    OneEntry(h, e, name);
    assert [Map(d), Map(e)][0].d in Entries([Map(d), Map(e)]) && [Map(d), Map(e)][1].d in Entries([Map(d), Map(e)]);
  }

  // The three sections, their bodies, and what a lookup in them finds.
  lemma {:induction false} Laid(h: Heap, n: Nodes, name: string)
    requires Shows(h, n)
    ensures CE(h, n.doc) == {n.context, n.other} && KE(h, n.doc) == {n.cluster} && UE(h, n.doc) == {n.user}
    ensures Resolve(h, n.doc, Contexts, name)
         == if name == "a" then Some(n.context) else if name == "b" then Some(n.other) else None
    ensures Resolve(h, n.doc, Clusters, name) == if name == "c" then Some(n.cluster) else None
    ensures Resolve(h, n.doc, Users, name) == if name == "u" then Some(n.user) else None
  {
    TwoEntries(h, n.context, n.other, name);
    OneEntry(h, n.cluster, name);
    OneEntry(h, n.user, name);
  }

  lemma {:induction false} Bodied(h: Heap, n: Nodes)
    requires Distinct(n) && Shows(h, n)
    ensures CB(h, n.doc) == {n.body, n.otherBody} && KB(h, n.doc) == {n.clusterBody} && UB(h, n.doc) == {}
    ensures Separate(h, n.doc)
  {
    Laid(h, n, "a");
    BodyOf(h, Section(h, n.doc, Contexts), ContextKey, n.context);
    BodyOf(h, Section(h, n.doc, Contexts), ContextKey, n.other);
    BodyOf(h, Section(h, n.doc, Clusters), ClusterKey, n.cluster);
  }

  lemma {:induction false} Viewed(h: Heap, n: Nodes)
    requires Shows(h, n)
    ensures Parse(h, n.doc) == Ok(View(n.clusterBody, "a", "c", "u", "s", "", "", ""))
    ensures !Taken(h, n.doc, NewName("n", "t"))
  {
    Laid(h, n, "a");
    Laid(h, n, "c");
    Laid(h, n, "u");
    NameIsLong();
    Laid(h, n, NewName("n", "t"));
    PartsGiveView(h, n.doc, View(n.clusterBody, "a", "c", "u", "s", "", "", ""), None);
  }

  // The cluster reference of context b finds nothing before the rename and the renamed cluster after.
  lemma {:induction false} DanglingReferenceResolves(n: Nodes) returns (h: Heap, t: Triple)
    requires Distinct(n)
    ensures var name := NewName("n", "t");
            && Separate(h, n.doc) && Renaming(h, n.doc, name) == Ok(t)
            && n.otherBody in CB(h, n.doc) && Get(h, n.otherBody, ClusterKey) == Str(name)
            && Resolve(h, n.doc, Clusters, name) == None
            && Get(Renamed(h, n.doc, t, name), n.otherBody, ClusterKey) == Str(name)
            && Resolve(Renamed(h, n.doc, t, name), n.doc, Clusters, name) == Some(n.cluster)
  {
    h := Written(n);
    Bodied(h, n);
    Viewed(h, n);
    Laid(h, n, "c");
    t := Repointed(h, n.doc, "c", n.cluster, NewName("n", "t"), n.otherBody);
  }

  lemma {:induction false} Repointed(h: Heap, doc: Dict, old_: string, x: Dict, name: string, b: Dict)
    returns (t: Triple)
    requires Separate(h, doc) && Parse(h, doc).Ok? && Parse(h, doc).value.cluster == old_
    requires Resolve(h, doc, Clusters, old_) == Some(x) && !Taken(h, doc, name)
    requires b in CB(h, doc) && Get(h, b, ClusterKey) == Str(name)
    ensures Renaming(h, doc, name) == Ok(t) && Resolve(h, doc, Clusters, name) == None
    ensures Get(Renamed(h, doc, t, name), b, ClusterKey) == Str(name)
    ensures Resolve(Renamed(h, doc, t, name), doc, Clusters, name) == Some(x)
  {
    OnlyReservedRefuses(h, doc, Parse(h, doc).value, name);
    t := Renaming(h, doc, name).value;
    ClusterLookups(h, doc, t, name, name);
    RefAfter(h, doc, t, name, b);
  }

  // A target with a configured TLS name is delivered with verification off, although its output says
  // that it is not insecure and the target does not allow that, and no warning says so.
  lemma {:induction false} UpstreamSkipSurvives(n: Nodes) returns (k: Case, after: Heap, o: Output)
    requires Distinct(n)
    ensures Clean(k) && OutputOf(k) == [o] && Left(k, after)
    ensures !o.insecure && !k.target.insecureFallback && Skips(after, k.fate.view.clusterBody)
    ensures forall w :: w in WarningsOf(k) ==> w.note.Disclosure?
  {
    var h := Written(n);
    Bodied(h, n);
    Viewed(h, n);
    var t, a := Target("t", true, Some("x"), false), Answer(Some(n.doc), Some("s"), true, 7, true, [], []);
    k := ConfiguredTarget("n", t, a, h, Parse(h, n.doc).value);
    after, o := SkipSurvives(k);
  }

  // A target with a configured name is delivered when its document parses and the name is free.
  lemma {:induction false} ConfiguredTarget(node: string, t: Target, a: Answer, h: Heap, v: View) returns (k: Case)
    requires a.doc.Some? && a.host.Some? && a.forwarded && a.probed && t.tlsServerName.Some?
    requires Separate(h, a.doc.value) && Parse(h, a.doc.value) == Ok(v)
    requires !Taken(h, a.doc.value, NewName(node, t.name))
    ensures Clean(k) && k == Case(node, t, a, h, Delivered(v, t.tlsServerName, false))
  {
    k := Case(node, t, a, h, Delivered(v, t.tlsServerName, false));
    assert Tls(t, a) == (t.tlsServerName, false);
  }

  // A secure delivery keeps the upstream key.
  lemma {:induction false} SkipSurvives(k: Case) returns (after: Heap, o: Output)
    requires Clean(k) && k.fate.Delivered? && !k.fate.insecure && k.target.tlsServerName.Some?
    requires Skips(k.picture, k.fate.view.clusterBody)
    ensures OutputOf(k) == [o] && Left(k, after) && !o.insecure && Skips(after, k.fate.view.clusterBody)
    ensures forall w :: w in WarningsOf(k) ==> w.note.Disclosure?
  {
    o := OutputOf(k)[0];
    after := LeftSomewhere(k);
    VerificationOff(k, after, o);
    forall w | w in WarningsOf(k)
      ensures w.note.Disclosure?
    {
      DisclosuresExact(k.target.name, IgnoredBy(k, k.fate.view), w);
    }
  }

  lemma {:induction false} LeftSomewhere(k: Case) returns (after: Heap)
    requires Clean(k) && k.fate.Delivered?
    ensures Left(k, after)
  {
    var f, doc, name := k.fate, k.answer.doc.value, NewName(k.node, k.target.name);
    PatchedAndRenamed(k.picture, doc, f.view, Digits(k.answer.port), f.tls, f.insecure, k.node, k.target.name);
    var p := PatchedDoc(k);
    after := Renamed(p, doc, Renaming(p, doc, name).value, name);
  }
}
