/**
  What parse_kubeconfig (tunstrap/kube.py) reads, said by the keys of the document
  alone: which entry each name selects, and which field each part of the view is.
*/
module KubeParse {
  import opened Wrappers
  import opened Kubeconfig
  import opened KubeMeaning

  // d is the first mapping of the list that carries the name.
  ghost predicate Finds(h: Heap, items: seq<Val>, name: string, d: Dict) {
    exists k :: 0 <= k < |items| && items[k] == Map(d) && FirstAt(h, items, name, k)
  }

  ghost predicate FirstAt(h: Heap, items: seq<Val>, name: string, k: nat)
    requires k < |items|
  {
    Carries(h, items[k], name) && forall j :: 0 <= j < k ==> !Carries(h, items[j], name)
  }

  lemma {:induction false} FindsExact(h: Heap, items: seq<Val>, name: string, d: Dict)
    ensures First(h, items, name) == Some(d) <==> Finds(h, items, name, d)
  {
    FirstExact(h, items, name);
    if First(h, items, name) == Some(d) {
      var k :| 0 <= k < |items| && items[k] == Map(d) && Carries(h, items[k], name)
               && forall j :: 0 <= j < k ==> !Carries(h, items[j], name);
      assert FirstAt(h, items, name, k);
    }
    if Finds(h, items, name, d) {
      var k :| 0 <= k < |items| && items[k] == Map(d) && FirstAt(h, items, name, k);
      var e := First(h, items, name).value;
      var m :| 0 <= m < |items| && items[m] == Map(e) && Carries(h, items[m], name)
               && forall j :: 0 <= j < m ==> !Carries(h, items[j], name);
      assert k == m;
    }
  }

  // The section of that key is a list, and d is the entry it has under the name.
  ghost predicate Holds(h: Heap, doc: Dict, section: Key, name: string, d: Dict) {
    Get(h, doc, section).List? && Finds(h, Get(h, doc, section).items, name, d)
  }

  lemma {:induction false} HoldsExact(h: Heap, doc: Dict, section: Key, name: string, d: Dict)
    ensures Resolve(h, doc, section, name) == Some(d) <==> Holds(h, doc, section, name, d)
  {
    FindsExact(h, Section(h, doc, section), name, d);
  }

  // A field that is absent or null reads as the empty string.
  ghost predicate Reads(x: Val, s: string) { x == Str(s) || (x == Null && s == "") }

  // The current context is entry c, with body b.
  ghost predicate ContextIs(h: Heap, doc: Dict, v: View, c: Dict, b: Dict) {
    && Get(h, doc, CurrentContext) == Str(v.context) && v.context != ""
    && Holds(h, doc, Contexts, v.context, c) && Get(h, c, ContextKey) == Map(b)
    && Get(h, b, ClusterKey) == Str(v.cluster) && v.cluster != ""
    && Get(h, b, UserKey) == Str(v.user) && v.user != ""
  }

  ghost predicate ClusterIs(h: Heap, doc: Dict, v: View, k: Dict) {
    && Holds(h, doc, Clusters, v.cluster, k) && Get(h, k, ClusterKey) == Map(v.clusterBody)
    && Get(h, v.clusterBody, Server) == Str(v.server) && v.server != ""
    && Reads(Get(h, v.clusterBody, CaData), v.ca)
  }

  // The credentials are the user's own; a user without a body has none.
  ghost predicate UserIs(h: Heap, doc: Dict, v: View, u: Dict) {
    && Holds(h, doc, Users, v.user, u)
    && match Get(h, u, UserKey)
       case Map(b) => Reads(Get(h, b, ClientCertData), v.clientCert) && Reads(Get(h, b, ClientKeyData), v.clientKey)
       case _ => v.clientCert == "" && v.clientKey == ""
  }

  lemma {:induction false} ContextExact(h: Heap, doc: Dict, v: View, c: Dict, b: Dict)
    requires ContextIs(h, doc, v, c, b)
    ensures Get(h, doc, CurrentContext) == Str(v.context) && ContextRefs(h, doc, v.context) == Ok((v.cluster, v.user))
  {
    HoldsExact(h, doc, Contexts, v.context, c);
  }

  lemma {:induction false} ClusterExact(h: Heap, doc: Dict, v: View, k: Dict)
    requires ClusterIs(h, doc, v, k)
    ensures ClusterSection(h, doc, v.cluster) == Ok((v.clusterBody, v.server))
    ensures StringField(h, Some(v.clusterBody), CaData) == Ok(v.ca)
  {
    HoldsExact(h, doc, Clusters, v.cluster, k);
  }

  lemma {:induction false} UserExact(h: Heap, doc: Dict, v: View, u: Dict) returns (body: Option<Dict>)
    requires UserIs(h, doc, v, u)
    ensures UserSection(h, doc, v.user) == Ok(body)
    ensures StringField(h, body, ClientCertData) == Ok(v.clientCert)
    ensures StringField(h, body, ClientKeyData) == Ok(v.clientKey)
  {
    HoldsExact(h, doc, Users, v.user, u);
    body := UserSection(h, doc, v.user).value;
  }

  // A document parses to a view exactly when its keys say so: the current context is the first entry
  // of that name, its cluster and user are the first of theirs, the server is the cluster's, and CA,
  // client certificate and client key are the fields of those two bodies.
  lemma {:induction false} ParsesExactly(h: Heap, doc: Dict, v: View)
    ensures Parse(h, doc) == Ok(v) <==>
            && (exists c, b :: ContextIs(h, doc, v, c, b))
            && (exists k :: ClusterIs(h, doc, v, k))
            && (exists u :: UserIs(h, doc, v, u))
  {
    if Parse(h, doc) == Ok(v) { var c, b, k, u := Parsed(h, doc, v); }
    if c, b :| ContextIs(h, doc, v, c, b) {
      if k :| ClusterIs(h, doc, v, k) {
        if u :| UserIs(h, doc, v, u) {
          ContextExact(h, doc, v, c, b);
          ClusterExact(h, doc, v, k);
          var body := UserExact(h, doc, v, u);
          PartsGiveView(h, doc, v, body);
        }
      }
    }
  }

  lemma {:induction false} Parsed(h: Heap, doc: Dict, v: View) returns (c: Dict, b: Dict, k: Dict, u: Dict)
    requires Parse(h, doc) == Ok(v)
    ensures ContextIs(h, doc, v, c, b) && ClusterIs(h, doc, v, k) && UserIs(h, doc, v, u)
  {
    c, k := Resolve(h, doc, Contexts, v.context).value, Resolve(h, doc, Clusters, v.cluster).value;
    u := Resolve(h, doc, Users, v.user).value;
    b := Get(h, c, ContextKey).d;
    HoldsExact(h, doc, Contexts, v.context, c);
    HoldsExact(h, doc, Clusters, v.cluster, k);
    HoldsExact(h, doc, Users, v.user, u);
  }

  // The credentials of a parsed document, read off the body of the user it selects.
  lemma {:induction false} CredentialsAreTheUsers(h: Heap, doc: Dict, v: View, u: Dict, b: Dict, s: string)
    requires Parse(h, doc) == Ok(v) && Resolve(h, doc, Users, v.user) == Some(u) && Get(h, u, UserKey) == Map(b)
    ensures Get(h, b, ClientCertData) == Str(s) ==> v.clientCert == s
    ensures Get(h, b, ClientCertData) == Null ==> v.clientCert == ""
    ensures Get(h, b, ClientKeyData) == Str(s) ==> v.clientKey == s
    ensures Get(h, b, ClientKeyData) == Null ==> v.clientKey == ""
    ensures Get(h, v.clusterBody, CaData) == Str(s) ==> v.ca == s
    ensures Get(h, v.clusterBody, CaData) == Null ==> v.ca == ""
  {
    var _, _, _, w := Parsed(h, doc, v);
    HoldsExact(h, doc, Users, v.user, w);
  }

  // Some entry of the section carries the name.
  ghost predicate InUse(h: Heap, doc: Dict, section: Key, name: string) {
    Get(h, doc, section).List?
    && exists j :: 0 <= j < |Get(h, doc, section).items| && Carries(h, Get(h, doc, section).items[j], name)
  }

  // A name is taken exactly when a context, a cluster or a user carries it.
  lemma {:induction false} TakenExactly(h: Heap, doc: Dict, name: string)
    ensures Taken(h, doc, name) <==>
            InUse(h, doc, Contexts, name) || InUse(h, doc, Clusters, name) || InUse(h, doc, Users, name)
  {
    FirstExact(h, Section(h, doc, Contexts), name);
    FirstExact(h, Section(h, doc, Clusters), name);
    FirstExact(h, Section(h, doc, Users), name);
  }

  // What patch_view does to the body of the current cluster, key by key.
  lemma {:induction false} PatchExactly(m: map<Key, Val>, port: string, tls: Option<string>, insecure: bool, key: Key)
    ensures var p := PatchBody(m, port, tls, insecure);
            (if key in p then Some(p[key]) else None) ==
            match key
            case Server => Some(Str("https://127.0.0.1:" + port))
            case InsecureSkip => if insecure then Some(Flag(true)) else Field(m, key)
            case CaData => if insecure then None else Field(m, key)
            case TlsServerName =>
              if insecure then None else if tls.Some? then Some(Str(tls.value)) else Field(m, key)
            case _ => Field(m, key)
  {
  }

  function Field(m: map<Key, Val>, key: Key): Option<Val> { if key in m then Some(m[key]) else None }
}
