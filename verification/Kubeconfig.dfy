/**
  A parsed kubeconfig as the mutable mappings a YAML loader returns, and what
  tunstrap/kube.py reads from it and rewrites in it.

  A `Heap` is a picture of those mappings at one moment. What the code looks up
  is a function of the picture; how it changes the document is said by `Patched`
  and `Renamed`, one case per mapping; KubeRewrite proves the loops and
  assignments of the source against them.
*/
module Kubeconfig {
  import opened Wrappers

  // The keys the code names, and every other one.
  datatype Key =
    | CurrentContext | Contexts | Clusters | Users
    | Name | ContextKey | ClusterKey | UserKey
    | Server | CaData | TlsServerName | InsecureSkip | ClientCertData | ClientKeyData
    | OtherKey(text: string)

  // A mapping node. Mappings are compared by identity, as Python does with `is`.
  class Dict {
    var m: map<Key, Val>

    constructor (m: map<Key, Val>)
      ensures this.m == m
    {
      this.m := m;
    }
  }

  datatype Val =
    | Null
    | Str(s: string)
    | Scalar(n: int)
    | Flag(b: bool)
    | Map(d: Dict)
    | List(items: seq<Val>)

  type Heap = map<Dict, map<Key, Val>>

  ghost function Snap(ds: set<Dict>): (h: Heap)
    reads ds
    ensures h.Keys == ds
  {
    map d | d in ds :: d.m
  }

  // dict.get(key): None for an absent key, and for a key that holds null.
  ghost function Get(h: Heap, d: Dict, key: Key): Val {
    if d in h && key in h[d] then h[d][key] else Null
  }

  // ---------------------------------------------------------------- lookups

  // _find_named: the first mapping in the list whose name is the given string.
  ghost function First(h: Heap, items: seq<Val>, name: string): (r: Option<Dict>)
    ensures r.Some? ==> Map(r.value) in items && Get(h, r.value, Name) == Str(name)
  {
    if items == [] then None
    else if items[0].Map? && Get(h, items[0].d, Name) == Str(name) then Some(items[0].d)
    else First(h, items[1..], name)
  }

  ghost predicate Carries(h: Heap, v: Val, name: string) { v.Map? && Get(h, v.d, Name) == Str(name) }

  // It is the first that carries the name, and none is found only when none carries it.
  lemma {:induction false} FirstExact(h: Heap, items: seq<Val>, name: string)
    ensures First(h, items, name).None? <==> forall j :: 0 <= j < |items| ==> !Carries(h, items[j], name)
    ensures First(h, items, name).Some? ==>
              exists k :: 0 <= k < |items| && items[k] == Map(First(h, items, name).value) && Carries(h, items[k], name)
                          && forall j :: 0 <= j < k ==> !Carries(h, items[j], name)
  {
    if items != [] && !Carries(h, items[0], name) {
      FirstExact(h, items[1..], name);
      var rest := items[1..];
      if First(h, rest, name).Some? {
        var k :| 0 <= k < |rest| && rest[k] == Map(First(h, rest, name).value) && Carries(h, rest[k], name)
                 && forall j :: 0 <= j < k ==> !Carries(h, rest[j], name);
        forall j | 0 <= j < k + 1
          ensures !Carries(h, items[j], name)
        {
          if j > 0 { assert items[j] == rest[j - 1]; }
        }
        assert items[k + 1] == rest[k];
      } else {
        assert forall j :: 0 < j < |items| ==> items[j] == rest[j - 1];
      }
    }
  }

  function Items(v: Val): seq<Val> { if v.List? then v.items else [] }

  ghost function Section(h: Heap, doc: Dict, key: Key): seq<Val> { Items(Get(h, doc, key)) }

  ghost function Resolve(h: Heap, doc: Dict, section: Key, name: string): Option<Dict> {
    First(h, Section(h, doc, section), name)
  }

  datatype Defect =
    | NoCurrentContext
    | ContextMissing
    | BadRef         // a cluster or user reference is missing or not a string
    | ClusterMissing
    | NoServer
    | UserMissing
    | FieldNotString
    | BodyNotMapping
    | Reserved       // the generated name is already taken

  datatype View = View(
    clusterBody: Dict, context: string, cluster: string, user: string,
    server: string, ca: string, clientCert: string, clientKey: string)

  // _context_refs
  ghost function ContextRefs(h: Heap, doc: Dict, current: string): Result<(string, string), Defect> {
    match Resolve(h, doc, Contexts, current)
    case None => Err(ContextMissing)
    case Some(ctx) =>
      var body := Get(h, ctx, ContextKey);
      var c := if body.Map? then Get(h, body.d, ClusterKey) else Null;
      var u := if body.Map? then Get(h, body.d, UserKey) else Null;
      if !c.Str? || c.s == "" || !u.Str? || u.s == "" then Err(BadRef) else Ok((c.s, u.s))
  }

  // _cluster_section
  ghost function ClusterSection(h: Heap, doc: Dict, name: string): Result<(Dict, string), Defect> {
    match Resolve(h, doc, Clusters, name)
    case None => Err(ClusterMissing)
    case Some(entry) =>
      var body := Get(h, entry, ClusterKey);
      var server := if body.Map? then Get(h, body.d, Server) else Null;
      if !body.Map? || !server.Str? || server.s == "" then Err(NoServer) else Ok((body.d, server.s))
  }

  // _user_section: a body that is absent or not a mapping counts as an empty one.
  ghost function UserSection(h: Heap, doc: Dict, name: string): Result<Option<Dict>, Defect> {
    match Resolve(h, doc, Users, name)
    case None => Err(UserMissing)
    case Some(entry) =>
      var body := Get(h, entry, UserKey);
      Ok(if body.Map? then Some(body.d) else None)
  }

  // _string_field
  ghost function StringField(h: Heap, body: Option<Dict>, key: Key): Result<string, Defect> {
    match (if body.Some? then Get(h, body.value, key) else Null)
    case Null => Ok("")
    case Str(s) => Ok(s)
    case _ => Err(FieldNotString)
  }

  // parse_kubeconfig, from the loaded root mapping on.
  ghost function Parse(h: Heap, doc: Dict): Result<View, Defect> {
    var current := Get(h, doc, CurrentContext);
    if !current.Str? || current.s == "" then Err(NoCurrentContext)
    else match ContextRefs(h, doc, current.s)
      case Err(e) => Err(e)
      case Ok((c, u)) =>
        match ClusterSection(h, doc, c)
        case Err(e) => Err(e)
        case Ok((body, server)) =>
          match UserSection(h, doc, u)
          case Err(e) => Err(e)
          case Ok(userBody) =>
            match (StringField(h, Some(body), CaData),
                   StringField(h, userBody, ClientCertData),
                   StringField(h, userBody, ClientKeyData))
            case (Ok(ca), Ok(cert), Ok(key)) => Ok(View(body, current.s, c, u, server, ca, cert, key))
            case _ => Err(FieldNotString)
  }

  // -------------------------------------------------------------- rewriting

  function Url(host: string): string { "https://127.0.0.1:" + host }

  // patch_view on the body of the current cluster; `port` is the rendered port number.
  function PatchBody(m: map<Key, Val>, port: string, tls: Option<string>, insecure: bool): map<Key, Val> {
    var m1 := m[Server := Str(Url(port))];
    if insecure then m1[InsecureSkip := Flag(true)] - {CaData, TlsServerName}
    else if tls.Some? then m1[TlsServerName := Str(tls.value)]
    else m1
  }

  ghost function Patched(h: Heap, body: Dict, port: string, tls: Option<string>, insecure: bool): Heap
    requires body in h
  {
    h[body := PatchBody(h[body], port, tls, insecure)]
  }

  function NewName(node: string, target: string): string { "tunstrap-" + node + "-" + target }

  // The three entries rename_identities acts on, or why it refuses.
  datatype Triple = Triple(context: Dict, body: Dict, cluster: Dict, user: Dict, oldCluster: string, oldUser: string)

  ghost function Taken(h: Heap, doc: Dict, name: string): bool {
    || Resolve(h, doc, Contexts, name).Some?
    || Resolve(h, doc, Clusters, name).Some?
    || Resolve(h, doc, Users, name).Some?
  }

  datatype Selection = Selection(context: Dict, body: Dict, cluster: string, user: string)

  // The current context, its body and the two names it refers to.
  ghost function Selected(h: Heap, doc: Dict): Result<Selection, Defect> {
    var current := Get(h, doc, CurrentContext);
    if !current.Str? then Err(NoCurrentContext)
    else match Resolve(h, doc, Contexts, current.s)
      case None => Err(ContextMissing)
      case Some(ctx) =>
        var body := Get(h, ctx, ContextKey);
        if !body.Map? then Err(BodyNotMapping)
        else
          var c, u := Get(h, body.d, ClusterKey), Get(h, body.d, UserKey);
          if !c.Str? || !u.Str? then Err(BadRef) else Ok(Selection(ctx, body.d, c.s, u.s))
  }

  ghost function Renaming(h: Heap, doc: Dict, name: string): Result<Triple, Defect> {
    match Selected(h, doc)
    case Err(e) => Err(e)
    case Ok(Selection(ctx, body, c, u)) =>
      if Taken(h, doc, name) then Err(Reserved)
      else match (Resolve(h, doc, Clusters, c), Resolve(h, doc, Users, u))
        case (None, _) => Err(ClusterMissing)
        case (_, None) => Err(UserMissing)
        case (Some(ce), Some(ue)) => Ok(Triple(ctx, body, ce, ue, c, u))
  }

  // References to the old cluster and user become references to the new name.
  function Repoint(m: map<Key, Val>, oldCluster: string, oldUser: string, name: string): map<Key, Val> {
    var m1 := if ClusterKey in m && m[ClusterKey] == Str(oldCluster) then m[ClusterKey := Str(name)] else m;
    if UserKey in m1 && m1[UserKey] == Str(oldUser) then m1[UserKey := Str(name)] else m1
  }

  ghost function Entries(items: seq<Val>): set<Dict> {
    set i | 0 <= i < |items| && items[i].Map? :: items[i].d
  }

  ghost function Bodies(h: Heap, items: seq<Val>, key: Key): set<Dict> {
    set e | e in Entries(items) && Get(h, e, key).Map? :: Get(h, e, key).d
  }

  // Every mapping of the document after the rename.
  ghost function RenamedDict(h: Heap, doc: Dict, t: Triple, name: string, d: Dict): map<Key, Val>
    requires d in h
  {
    if d == doc then h[d][CurrentContext := Str(name)]
    else if d in {t.context, t.cluster, t.user} then h[d][Name := Str(name)]
    else if d in Bodies(h, Section(h, doc, Contexts), ContextKey) then Repoint(h[d], t.oldCluster, t.oldUser, name)
    else h[d]
  }

  ghost function Renamed(h: Heap, doc: Dict, t: Triple, name: string): Heap {
    map d | d in h :: RenamedDict(h, doc, t, name, d)
  }

  // -------------------------------------------------------------- well-formed

  // Every mapping met is in the picture, and the sections share no mapping: no YAML alias leads
  // from one section into another. Within a section, aliases are allowed.
  ghost predicate Separate(h: Heap, doc: Dict) {
    var cs, ks, us := Section(h, doc, Contexts), Section(h, doc, Clusters), Section(h, doc, Users);
    var cb, kb, ub := Bodies(h, cs, ContextKey), Bodies(h, ks, ClusterKey), Bodies(h, us, UserKey);
    && doc in h
    && Entries(cs) + Entries(ks) + Entries(us) + cb + kb + ub <= h.Keys
    && {doc} !! Entries(cs) !! Entries(ks) !! Entries(us) !! cb !! kb !! ub
  }
}
