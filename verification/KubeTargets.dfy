/**
  One kube_target of `run_kube_targets` (tunstrap/kube.py), on its live document:
  parse, forward, choose a TLS name, patch, rename, disclose. What the remote
  side answers is an input.
*/
module KubeTargets {
  import opened Wrappers
  import opened Kubeconfig
  import opened KubeMeaning
  import opened KubeRewrite

  datatype Target = Target(name: string, required: bool, tlsServerName: Option<string>, insecureFallback: bool)

  // What the world answers for one target.
  datatype Answer = Answer(
    doc: Option<Dict>,     // the document's root, when it is fetched in time and is a YAML mapping
    host: Option<string>,  // the host _split_host_port finds in the server URL, or its refusal
    forwarded: bool,       // forward_local_port returns; otherwise its exception escapes the loop
    port: nat,             // the local port it listens on
    probed: bool,          // the TLS probe returns; otherwise its exception escapes the loop
    dns: seq<string>,
    ips: seq<string>)

  // One target, the picture of its document as it was fetched, and how it ends.
  datatype Case = Case(node: string, target: Target, answer: Answer, picture: Heap, fate: Fate)

  datatype Note = Failure | Insecure | FellBack(name: string) | Disclosure(context: Val)

  datatype Warning = Warning(target: string, note: Note)

  // The fields of KubeTargetOutput; its content is the document as it stands after the rename.
  datatype Output = Output(
    name: string, identity: string, port: nat, tls: Option<string>, insecure: bool,
    ca: string, clientCert: string, clientKey: string)

  // choose_tls_server_name: the name, and whether it is a fallback.
  function ChooseName(host: string, dns: seq<string>, ips: seq<string>): (r: (Option<string>, bool))
    ensures r.1 <==> host !in dns && host !in ips
    ensures !r.1 ==> r.0 == Some(host)
    ensures r.1 && dns != [] ==> r.0 == Some(dns[0])
    ensures r.1 && dns == [] && ips != [] ==> r.0 == Some(ips[0])
    ensures r.0.None? <==> dns == [] && ips == []
  {
    if host in dns || host in ips then (Some(host), false)
    else if dns != [] then (Some(dns[0]), true)
    else if ips != [] then (Some(ips[0]), true)
    else (None, true)
  }

  // How a target ends, by the first step that fails.
  datatype Fate =
    | Unparsed
    | BadUrl
    | Aborted(forwarded: bool)  // the forward raised, or the TLS probe once it was there
    | NoTlsName
    | NameTaken(view: View, tls: Option<string>, insecure: bool)
    | Delivered(view: View, tls: Option<string>, insecure: bool)

  function Tls(t: Target, a: Answer): (Option<string>, bool)
    requires a.host.Some?
  {
    if t.tlsServerName.Some? then (t.tlsServerName, false)
    else
      var chosen := ChooseName(a.host.value, a.dns, a.ips).0;
      (chosen, chosen.None? && t.insecureFallback)
  }

  // An exception of the forward, or of the probe when it is asked for, escapes the loop.
  predicate Raises(t: Target, a: Answer) { !a.forwarded || (t.tlsServerName.None? && !a.probed) }

  // The document parses to the view, and its server URL names a host.
  ghost predicate Reaches(k: Case, view: View) {
    k.answer.doc.Some? && Parse(k.picture, k.answer.doc.value) == Ok(view) && k.answer.host.Some?
  }

  // The forward is up and there is a TLS name, or leave to do without.
  ghost predicate Usable(k: Case, view: View, tls: Option<string>, insecure: bool) {
    Reaches(k, view) && !Raises(k.target, k.answer) && Tls(k.target, k.answer) == (tls, insecure)
    && (tls.Some? || insecure)
  }

  // The fate is the one the answers and the document decide.
  ghost predicate Decided(k: Case) {
    var t, a := k.target, k.answer;
    match k.fate
    case Unparsed => a.doc.None? || Parse(k.picture, a.doc.value).Err?
    case BadUrl => a.doc.Some? && Parse(k.picture, a.doc.value).Ok? && a.host.None?
    case Aborted(forwarded) =>
      a.doc.Some? && Parse(k.picture, a.doc.value).Ok? && a.host.Some? && Raises(t, a) && forwarded == a.forwarded
    case NoTlsName =>
      a.doc.Some? && Parse(k.picture, a.doc.value).Ok? && a.host.Some? && !Raises(t, a) && Tls(t, a) == (None, false)
    case NameTaken(view, tls, insecure) =>
      Usable(k, view, tls, insecure) && Taken(k.picture, a.doc.value, NewName(k.node, t.name))
    case Delivered(view, tls, insecure) =>
      Usable(k, view, tls, insecure) && !Taken(k.picture, a.doc.value, NewName(k.node, t.name))
  }

  // They decide for exactly one.
  lemma {:induction false} OneFate(node: string, t: Target, a: Answer, picture: Heap) returns (fate: Fate)
    ensures forall f :: Decided(Case(node, t, a, picture, f)) <==> f == fate
  {
    if a.doc.None? || Parse(picture, a.doc.value).Err? { return Unparsed; }
    if a.host.None? { return BadUrl; }
    if Raises(t, a) { return Aborted(a.forwarded); }
    fate := FateOfView(node, t, a, picture, Parse(picture, a.doc.value).value);
  }

  lemma {:induction false} FateOfView(node: string, t: Target, a: Answer, picture: Heap, view: View)
    returns (fate: Fate)
    requires a.doc.Some? && Parse(picture, a.doc.value) == Ok(view) && a.host.Some? && !Raises(t, a)
    ensures forall f :: Decided(Case(node, t, a, picture, f)) <==> f == fate
  {
    var (tls, insecure) := Tls(t, a);
    if tls.None? && !insecure { return NoTlsName; }
    fate := if Taken(picture, a.doc.value, NewName(node, t.name)) then NameTaken(view, tls, insecure)
            else Delivered(view, tls, insecure);
  }

  // The document meets no alias across sections.
  ghost predicate Clean(k: Case) {
    Decided(k) && (k.answer.doc.Some? ==> Separate(k.picture, k.answer.doc.value))
  }

  // The forward whose listener is open once the loop is done with the target, delivered or not.
  ghost function OpenedFor(k: Case): set<nat> {
    if k.fate.Delivered? || k.fate == Aborted(true) then {k.answer.port} else {}
  }

  function Digits(n: nat): string {
    (if n < 10 then [] else Digits(n / 10)) + [('0' as int + n % 10) as char]
  }

  function Value(s: string): nat {
    if s == [] then 0 else 10 * Value(s[..|s| - 1]) + DigitValue(s[|s| - 1])
  }

  function DigitValue(c: char): nat { if '0' <= c <= '9' then c as int - '0' as int else 0 }

  function DigitOf(d: nat): char
    requires d < 10
  {
    ('0' as int + d) as char
  }

  lemma {:induction false} LastDigit(n: nat) returns (q: nat, d: nat)
    ensures d < 10 && n == 10 * q + d && DigitValue(DigitOf(d)) == d && '0' <= DigitOf(d) <= '9'
    ensures Digits(n) == (if q == 0 then [] else Digits(q)) + [DigitOf(d)]
  {
    q, d := n / 10, n % 10;
  }

  lemma {:induction false} ValueNext(s: string, c: char)
    ensures Value(s + [c]) == 10 * Value(s) + DigitValue(c)
  {
    assert (s + [c])[..|s|] == s;
  }

  // s is the decimal form of n.
  predicate Decimal(s: string, n: nat) {
    && s != [] && Value(s) == n && (n > 0 ==> s[0] != '0')
    && forall i :: 0 <= i < |s| ==> '0' <= s[i] <= '9'
  }

  lemma {:induction false} OneMoreDigit(front: string, q: nat, d: nat)
    requires d < 10 && (if q == 0 then front == [] else Decimal(front, q))
    ensures Decimal(front + [DigitOf(d)], 10 * q + d)
  {
    ValueNext(front, DigitOf(d));
  }

  // The port is written in decimal: digits only, no leading zero, and read back as it was.
  lemma {:induction false} DigitsReadBack(n: nat)
    ensures Decimal(Digits(n), n)
  {
    var q, d := LastDigit(n);
    if q > 0 { DigitsReadBack(q); }
    OneMoreDigit(if q == 0 then [] else Digits(q), q, d);
  }

  ghost function PatchedDoc(k: Case): Heap
    requires Clean(k) && (k.fate.NameTaken? || k.fate.Delivered?)
  {
    var f := k.fate;
    ViewBody(k.picture, k.answer.doc.value, f.view);
    Patched(k.picture, f.view.clusterBody, Digits(k.answer.port), f.tls, f.insecure)
  }

  // The renamed picture of the patched document.
  ghost predicate Rewritten(k: Case, after: Heap)
    requires Clean(k)
  {
    k.fate.Delivered? &&
    var p, doc, name := PatchedDoc(k), k.answer.doc.value, NewName(k.node, k.target.name);
    Renaming(p, doc, name).Ok? && after == Renamed(p, doc, Renaming(p, doc, name).value, name)
  }

  // What has become of the document when the loop is done with the target.
  ghost predicate Left(k: Case, after: Heap)
    requires Clean(k)
  {
    match k.fate
    case Delivered(_, _, _) => Rewritten(k, after)
    case NameTaken(_, _, _) => after == PatchedDoc(k)
    case _ => after == k.picture
  }

  // What _resolve_tls says about a target whose forward is up.
  function TlsWarnings(t: Target, a: Answer): seq<Warning> {
    if t.tlsServerName.Some? || a.host.None? then []
    else match ChooseName(a.host.value, a.dns, a.ips)
      case (None, _) => if t.insecureFallback then [Warning(t.name, Insecure)] else []
      case (Some(chosen), fellBack) => if fellBack then [Warning(t.name, FellBack(chosen))] else []
  }

  // _ignored_contexts: the names of all contexts but the current one, whatever they are.
  ghost function Ignored(h: Heap, items: seq<Val>, current: string): seq<Val> {
    if items == [] then []
    else
      Ignored(h, items[..|items| - 1], current)
      + var last := items[|items| - 1];
        if last.Map? && Get(h, last.d, Name) != Str(current) then [Get(h, last.d, Name)] else []
  }

  ghost function IgnoredBy(k: Case, view: View): seq<Val> {
    if k.answer.doc.None? then []
    else Ignored(k.picture, Section(k.picture, k.answer.doc.value, Contexts), view.context)
  }

  function Disclosures(name: string, ignored: seq<Val>): seq<Warning> {
    if ignored == [] then []
    else Disclosures(name, ignored[..|ignored| - 1]) + [Warning(name, Disclosure(ignored[|ignored| - 1]))]
  }

  lemma {:induction false} DisclosuresExact(name: string, ignored: seq<Val>, w: Warning)
    ensures w in Disclosures(name, ignored) <==> w.target == name && w.note.Disclosure? && w.note.context in ignored
  {
    if ignored != [] {
      var front, last := ignored[..|ignored| - 1], ignored[|ignored| - 1];
      DisclosuresExact(name, front, w);
      assert ignored == front + [last];
    }
  }

  // All warnings of one target, by its fate.
  ghost function WarningsOf(k: Case): seq<Warning> {
    var t := k.target;
    match k.fate
    case Unparsed => [Warning(t.name, Failure)]
    case BadUrl => [Warning(t.name, Failure)]
    case Aborted(_) => []
    case Delivered(view, _, _) => TlsWarnings(t, k.answer) + Disclosures(t.name, IgnoredBy(k, view))
    case _ => TlsWarnings(t, k.answer) + [Warning(t.name, Failure)]
  }

  function Delivery(node: string, t: Target, a: Answer, v: View, tls: Option<string>, insecure: bool): Output {
    Output(t.name, NewName(node, t.name), a.port, tls, insecure, Secured(v.ca, insecure), v.clientCert, v.clientKey)
  }

  ghost function OutputOf(k: Case): seq<Output> {
    match k.fate
    case Delivered(v, tls, insecure) =>
      [Delivery(k.node, k.target, k.answer, v, tls, insecure)]
    case _ => []
  }

  // The name, when the target is required and was not delivered.
  ghost function FailureOf(k: Case): seq<string> {
    if k.target.required && !k.fate.Delivered? && !k.fate.Aborted? then [k.target.name] else []
  }

  // ------------------------------------------------------------------ the code

  // The SSH connection's forwards, by the local port they listen on.
  class Connection {
    var open: set<nat>

    constructor ()
      ensures open == {}
    {
      open := {};
    }

    // The system gives out no port in use.
    method Forward(port: nat)
      requires port !in open
      modifies this
      ensures open == old(open) + {port}
    {
      open := open + {port};
    }

    method Close(port: nat)
      modifies this
      ensures open == old(open) - {port}
    {
      open := open - {port};
    }
  }

  method IgnoredContexts(doc: Dict, current: string, ghost ds: set<Dict>) returns (ignored: seq<Val>)
    requires Sections(Snap(ds), doc)
    ensures ignored == Ignored(Snap(ds), Section(Snap(ds), doc, Contexts), current)
  {
    ghost var h := Snap(ds);
    var contexts := Lookup(doc, Contexts);
    var items := if contexts.List? then contexts.items else [];
    ignored := [];
    var i := 0;
    while i < |items|
      invariant 0 <= i <= |items| && ignored == Ignored(h, items[..i], current)
    {
      assert items[..i + 1][..i] == items[..i];
      if items[i].Map? {
        assert items[i].d in Entries(items);
        var n := Lookup(items[i].d, Name);
        if n != Str(current) { ignored := ignored + [n]; }
      }
      i := i + 1;
    }
    assert items[..i] == items;
  }

  // _resolve_tls: the name, and whether verification is to be turned off here.
  method ResolveTls(t: Target, a: Answer) returns (tls: Option<string>, insecure: bool, warnings: seq<Warning>)
    requires a.host.Some? && (t.tlsServerName.None? ==> a.probed)
    ensures (tls, insecure) == Tls(t, a)
    ensures t.tlsServerName.Some? ==> tls == t.tlsServerName
    ensures tls.None? <==> t.tlsServerName.None? && a.dns == [] && a.ips == []
    ensures insecure <==> tls.None? && t.insecureFallback
    // with no name configured: the host when the certificate lists it, else its first DNS name, else
    // its first IP
    ensures t.tlsServerName.None? ==>
              if a.host.value in a.dns || a.host.value in a.ips then tls == a.host
              else if a.dns != [] then tls == Some(a.dns[0])
              else if a.ips != [] then tls == Some(a.ips[0])
              else tls.None?
    ensures warnings == TlsWarnings(t, a)
    ensures forall w :: w in warnings <==>
              || (w == Warning(t.name, Insecure) && insecure)
              || (w.target == t.name && w.note.FellBack? && t.tlsServerName.None?
                  && tls == Some(w.note.name) && a.host != tls)
  {
    if t.tlsServerName.Some? { return t.tlsServerName, false, []; }
    var (chosen, fellBack) := ChooseName(a.host.value, a.dns, a.ips);
    if chosen.None? {
      if t.insecureFallback { return None, true, [Warning(t.name, Insecure)]; }
      return None, false, [];
    }
    return chosen, false, if fellBack then [Warning(t.name, FellBack(chosen.value))] else [];
  }

  // What one target comes to: its output, its warnings, its document and its port.
  ghost predicate Served(k: Case, o: Option<Output>, warnings: seq<Warning>) {
    && OutputOf(k) == (if o.Some? then [o.value] else [])
    && FailureOf(k) == (if o.None? && k.target.required then [k.target.name] else [])
    && warnings == WarningsOf(k)
  }

  // The loop body up to the forward: fetching, parsing, the server URL.
  method ParseTarget(t: Target, a: Answer, ghost k: Case, ghost ds: set<Dict>)
    returns (r: Option<(View, seq<Val>)>)
    requires k == Case(k.node, t, a, Snap(ds), k.fate) && Clean(k)
    ensures r.None? <==> k.fate == Unparsed || k.fate == BadUrl
    ensures r.Some? ==> a.doc.Some?
    ensures r.Some? ==> Reaches(k, r.value.0)
    ensures r.Some? ==> r.value.1 == IgnoredBy(k, r.value.0)
  {
    if a.doc.None? { return None; }
    var view := ParseKubeconfig(a.doc.value, ds);
    if view.Err? { return None; }
    var ignored := IgnoredContexts(a.doc.value, view.value.context, ds);
    if a.host.None? { return None; }
    return Some((view.value, ignored));
  }

  // patch_view, then rename_identities. On a document that parses, a taken name is the only refusal.
  method Rewrite(view: View, doc: Dict, node: string, t: Target, port: nat, tls: Option<string>, insecure: bool,
                 ghost k: Case, ghost ds: set<Dict>)
    returns (r: Result<string, Defect>)
    requires k == Case(node, t, k.answer, Snap(ds), k.fate) && Clean(k)
    requires k.answer.doc == Some(doc) && k.answer.port == port
    requires k.fate == NameTaken(view, tls, insecure) || k.fate == Delivered(view, tls, insecure)
    modifies ds
    ensures r == if k.fate.Delivered? then Ok(NewName(node, t.name)) else Err(Reserved)
    ensures Left(k, Snap(ds))
  {
    ghost var h := Snap(ds);
    ViewBody(h, doc, view);
    PatchedFacts(h, doc, view, Digits(port), tls, insecure);
    PatchedAndRenamed(h, doc, view, Digits(port), tls, insecure, node, t.name);
    PatchView(view.clusterBody, Digits(port), tls, insecure, ds);
    r := RenameIdentities(doc, node, t.name, ds);
  }

  lemma {:induction false} ServedBadly(k: Case)
    requires !k.fate.Delivered? && !k.fate.Aborted?
    ensures Served(k, None, WarningsOf(k))
  {
  }

  lemma {:induction false} ServedInTheEnd(k: Case, v: View, tls: Option<string>, insecure: bool, o: Option<Output>,
                                          warnings: seq<Warning>)
    requires k.fate == NameTaken(v, tls, insecure) || k.fate == Delivered(v, tls, insecure)
    requires o == if k.fate.Delivered? then Some(Delivery(k.node, k.target, k.answer, v, tls, insecure)) else None
    requires warnings == if o.Some? then Disclosures(k.target.name, IgnoredBy(k, v))
                         else [Warning(k.target.name, Failure)]
    ensures Served(k, o, TlsWarnings(k.target, k.answer) + warnings)
  {
  }

  lemma {:induction false} LeftAlone(k: Case)
    requires Clean(k) && (k.fate.Unparsed? || k.fate.BadUrl? || k.fate.Aborted? || k.fate.NoTlsName?)
    ensures Left(k, k.picture)
  {
  }

  // The whole body of the loop. An exception of the forward or of the probe escapes it.
  method OneTarget(node: string, c: Connection, t: Target, a: Answer, ghost k: Case, ghost ds: set<Dict>)
    returns (raised: bool, o: Option<Output>, warnings: seq<Warning>)
    requires k == Case(node, t, a, Snap(ds), k.fate) && Clean(k) && a.port !in c.open
    modifies c, ds
    ensures raised <==> k.fate.Aborted?
    ensures !raised ==> Served(k, o, warnings)
    ensures Left(k, Snap(ds)) && c.open == old(c.open) + OpenedFor(k)
    ensures o.Some? ==> o.value.port == a.port
  {
    var parsed := ParseTarget(t, a, k, ds);
    if parsed.None? {
      ServedBadly(k);
      LeftAlone(k);
      return false, None, [Warning(t.name, Failure)];
    }
    var (view, ignored) := parsed.value;
    raised, o, warnings := Expose(node, c, t, a, view, ignored, k, ds);
  }

  // Forwarding the server's port and settling its TLS name. A target that is not delivered after
  // its forward was opened closes it again; an exception that escapes leaves it to the connection.
  method Expose(node: string, c: Connection, t: Target, a: Answer, view: View, ignored: seq<Val>,
                ghost k: Case, ghost ds: set<Dict>)
    returns (raised: bool, o: Option<Output>, warnings: seq<Warning>)
    requires k == Case(node, t, a, Snap(ds), k.fate) && Clean(k) && Reaches(k, view) && a.port !in c.open
    requires ignored == IgnoredBy(k, view)
    modifies c, ds
    ensures raised <==> k.fate.Aborted?
    ensures !raised ==> Served(k, o, warnings)
    ensures Left(k, Snap(ds)) && c.open == old(c.open) + OpenedFor(k)
    ensures o.Some? ==> o.value.port == a.port
  {
    if Raises(t, a) { LeftAlone(k); }
    if !a.forwarded { return true, None, []; }
    c.Forward(a.port);
    if t.tlsServerName.None? && !a.probed { return true, None, []; }
    o, warnings := Settle(node, c, t, a, view, ignored, k, ds);
    raised := false;
  }

  // The loop body from the TLS name on, which the target configures or the probe has helped to find.
  method Settle(node: string, c: Connection, t: Target, a: Answer, view: View, ignored: seq<Val>,
                ghost k: Case, ghost ds: set<Dict>)
    returns (o: Option<Output>, warnings: seq<Warning>)
    requires k == Case(node, t, a, Snap(ds), k.fate) && Clean(k) && Reaches(k, view) && !Raises(t, a)
    requires ignored == IgnoredBy(k, view)
    modifies c, ds
    ensures Served(k, o, warnings) && Left(k, Snap(ds))
    ensures o.Some? ==> o.value.port == a.port && c.open == old(c.open)
    ensures o.None? ==> c.open == old(c.open) - {a.port}
  {
    var tls, insecure, ws := ResolveTls(t, a);
    if tls.None? && !insecure {
      c.Close(a.port);
      ServedBadly(k);
      LeftAlone(k);
      return None, ws + [Warning(t.name, Failure)];
    }
    o, warnings := Deliver(node, c, t, a, view, ignored, tls, insecure, k, ds);
    ServedInTheEnd(k, view, tls, insecure, o, warnings);
    warnings := ws + warnings;
  }

  // The rest of the loop body, once the TLS question is settled.
  method Deliver(node: string, c: Connection, t: Target, a: Answer, view: View, ignored: seq<Val>,
                 tls: Option<string>, insecure: bool, ghost k: Case, ghost ds: set<Dict>)
    returns (o: Option<Output>, warnings: seq<Warning>)
    requires k == Case(node, t, a, Snap(ds), k.fate) && Clean(k) && a.doc.Some?
    requires k.fate == NameTaken(view, tls, insecure) || k.fate == Delivered(view, tls, insecure)
    modifies c, ds
    ensures Left(k, Snap(ds))
    ensures o == if k.fate.Delivered? then Some(Delivery(node, t, a, view, tls, insecure)) else None
    ensures warnings == if o.Some? then Disclosures(t.name, ignored) else [Warning(t.name, Failure)]
    ensures c.open == if o.Some? then old(c.open) else old(c.open) - {a.port}
  {
    o := Produce(node, t, a, view, tls, insecure, k, ds);
    if o.None? {
      CloseOnly(c, a.port, k, ds);
      return None, [Warning(t.name, Failure)];
    }
    return o, Disclosures(t.name, ignored);
  }

  // Closing a listener leaves the document alone.
  method CloseOnly(c: Connection, port: nat, ghost k: Case, ghost ds: set<Dict>)
    requires Clean(k) && Left(k, Snap(ds))
    modifies c
    ensures Left(k, Snap(ds)) && c.open == old(c.open) - {port}
  {
    ghost var after := Snap(ds);
    c.Close(port);
    assert Snap(ds) == after;
  }

  // The rewritten document and the fields that go with it.
  method Produce(node: string, t: Target, a: Answer, view: View, tls: Option<string>, insecure: bool,
                 ghost k: Case, ghost ds: set<Dict>)
    returns (o: Option<Output>)
    requires k == Case(node, t, a, Snap(ds), k.fate) && Clean(k) && a.doc.Some?
    requires k.fate == NameTaken(view, tls, insecure) || k.fate == Delivered(view, tls, insecure)
    modifies ds
    ensures Left(k, Snap(ds))
    ensures o == if k.fate.Delivered? then Some(Delivery(node, t, a, view, tls, insecure)) else None
  {
    var identity := Rewrite(view, a.doc.value, node, t, a.port, tls, insecure, k, ds);
    if identity.Err? { return None; }
    o := Some(Output(t.name, identity.value, a.port, tls, insecure, if insecure then "" else view.ca,
                     view.clientCert, view.clientKey));
  }

  // --------------------------------------------------------------- what it means

  // Parsing what was delivered gives the output's own fields: the generated names, the local
  // server, the CA and the credentials.
  lemma {:induction false} DeliveredParses(k: Case, after: Heap, o: Output)
    requires Clean(k) && OutputOf(k) == [o] && Left(k, after)
    ensures var r := Parse(after, k.answer.doc.value);
            && r.Ok? && r.value.context == o.identity && r.value.cluster == o.identity && r.value.user == o.identity
            && r.value.server == "https://127.0.0.1:" + Digits(o.port) && r.value.ca == o.ca
            && r.value.clientCert == o.clientCert && r.value.clientKey == o.clientKey
    ensures o.name == k.target.name && o.identity == "tunstrap-" + k.node + "-" + k.target.name
    ensures var v := k.fate.view;
            && Parse(k.picture, k.answer.doc.value) == Ok(v) && o.port == k.answer.port
            && o.clientCert == v.clientCert && o.clientKey == v.clientKey && o.ca == if o.insecure then "" else v.ca
  {
    var f := k.fate;
    var doc := k.answer.doc.value;
    PatchedAndRenamed(k.picture, doc, f.view, Digits(k.answer.port), f.tls, f.insecure, k.node, k.target.name);
  }

  // The document tells its reader not to verify the server.
  ghost predicate Skips(h: Heap, body: Dict) { Get(h, body, InsecureSkip) == Flag(true) }

  // What a delivered document says about verification: the secure patch sets the name and leaves an
  // upstream insecure-skip-tls-verify as it was, so the server goes unverified exactly when the
  // output says so or the document said so before.
  lemma {:induction false} VerificationOff(k: Case, after: Heap, o: Output)
    requires Clean(k) && OutputOf(k) == [o] && Left(k, after)
    ensures var r, body := Parse(after, k.answer.doc.value), k.fate.view.clusterBody;
            && r.Ok? && r.value.clusterBody == body
            && (Skips(after, body) <==> o.insecure || Skips(k.picture, body))
            && (!o.insecure ==> Get(after, body, InsecureSkip) == Get(k.picture, body, InsecureSkip))
            && Get(after, body, TlsServerName) == (if o.insecure then Null else Str(o.tls.value))
            && Get(after, body, CaData) == if o.insecure then Null else Get(k.picture, body, CaData)
    ensures o.insecure ==> o.tls.None? && k.target.tlsServerName.None? && k.target.insecureFallback
  {
    var f, doc, name := k.fate, k.answer.doc.value, NewName(k.node, k.target.name);
    DeliveredNamed(k);
    BodyLeft(k, after);
    PatchSays(k.picture, after, f.view.clusterBody, Digits(k.answer.port), f.tls, f.insecure);
    PatchedAndRenamed(k.picture, doc, f.view, Digits(k.answer.port), f.tls, f.insecure, k.node, k.target.name);
  }

  // The cluster body of a delivered document is the one the patch wrote.
  lemma {:induction false} BodyLeft(k: Case, after: Heap)
    requires Clean(k) && k.fate.Delivered? && Left(k, after)
    ensures var f, body := k.fate, k.fate.view.clusterBody;
            && body in k.picture && body in after
            && after[body] == PatchBody(k.picture[body], Digits(k.answer.port), f.tls, f.insecure)
  {
    var f, doc, name := k.fate, k.answer.doc.value, NewName(k.node, k.target.name);
    ViewBody(k.picture, doc, f.view);
    var t := Renaming(PatchedDoc(k), doc, name).value;
    BodyDelivered(k.picture, doc, f.view, Digits(k.answer.port), f.tls, f.insecure, t, name);
  }

  lemma {:induction false} PatchSays(h: Heap, h': Heap, body: Dict, port: string, tls: Option<string>, insecure: bool)
    requires body in h && body in h' && h'[body] == PatchBody(h[body], port, tls, insecure)
    ensures Get(h', body, InsecureSkip) == if insecure then Flag(true) else Get(h, body, InsecureSkip)
    ensures insecure ==> Get(h', body, TlsServerName) == Null && Get(h', body, CaData) == Null
    ensures !insecure ==> Get(h', body, CaData) == Get(h, body, CaData)
    ensures !insecure && tls.Some? ==> Get(h', body, TlsServerName) == Str(tls.value)
  {
  }

  // A delivered target has a TLS name unless verification is off.
  lemma {:induction false} DeliveredNamed(k: Case)
    requires Clean(k) && k.fate.Delivered?
    ensures k.fate.insecure ==>
              k.fate.tls.None? && k.target.tlsServerName.None? && k.target.insecureFallback
    ensures !k.fate.insecure ==> k.fate.tls.Some?
  {
  }

  ghost predicate OtherContext(h: Heap, items: seq<Val>, current: string, d: Dict, x: Val) {
    Map(d) in items && Get(h, d, Name) != Str(current) && Get(h, d, Name) == x
  }

  // The disclosed contexts are exactly the ones not selected.
  lemma {:induction false} IgnoredExact(h: Heap, items: seq<Val>, current: string, x: Val)
    ensures x in Ignored(h, items, current) <==> exists d :: OtherContext(h, items, current, d, x)
  {
    if items != [] {
      var front, last := items[..|items| - 1], items[|items| - 1];
      IgnoredExact(h, front, current, x);
      assert items == front + [last];
      if last.Map? && Get(h, last.d, Name) != Str(current) && Get(h, last.d, Name) == x {
        assert OtherContext(h, items, current, last.d, x);
      }
      if d :| OtherContext(h, front, current, d, x) { assert OtherContext(h, items, current, d, x); }
      if d :| OtherContext(h, items, current, d, x) { assert Map(d) == last || OtherContext(h, front, current, d, x); }
    }
  }

  // ... and they keep the order of the document: of a shorter list of contexts, the same are
  // disclosed first.
  lemma {:induction false} IgnoredInOrder(h: Heap, items: seq<Val>, current: string, n: nat)
    requires n <= |items|
    ensures Ignored(h, items[..n], current) <= Ignored(h, items, current)
  {
    if n == |items| {
      assert items[..n] == items;
    } else {
      IgnoredInOrder(h, items[..|items| - 1], current, n);
      assert items[..|items| - 1][..n] == items[..n];
    }
  }

  // The loop has found out what name the server answers to.
  ghost predicate Settled(k: Case) { k.fate.NoTlsName? || k.fate.NameTaken? || k.fate.Delivered? }

  // The warnings of a target are: a failure when it was not delivered; that verification is turned
  // off, when no name is configured, the certificate has none and the target allows that; the name
  // fallen back to, when none is configured and the certificate does not list the host; and, when it
  // was delivered, each context of the document that is not the selected one.
  lemma {:induction false} WarningsExactly(k: Case, w: Warning)
    requires Clean(k)
    ensures w in WarningsOf(k) <==>
            && w.target == k.target.name
            && match w.note
               case Failure => !k.fate.Delivered? && !k.fate.Aborted?
               case Insecure => Settled(k) && Nameless(k) && k.target.insecureFallback
               case FellBack(x) => Settled(k) && Fallback(k, x)
               case Disclosure(x) => k.fate.Delivered? && Discloses(k, x)
  {
    var f := k.fate;
    if f.Delivered? {
      DisclosuresExact(k.target.name, IgnoredBy(k, f.view), w);
      if w.note.Disclosure? { DisclosesExactly(k, w.note.context); }
    }
    if Settled(k) { TlsWarningsExactly(k, w); }
  }

  ghost function ContextsOf(k: Case): seq<Val>
    requires k.answer.doc.Some?
  {
    Items(Get(k.picture, k.answer.doc.value, Contexts))
  }

  // One of the document's contexts is not the selected one and has that name.
  ghost predicate Discloses(k: Case, x: Val)
    requires k.answer.doc.Some? && k.fate.Delivered?
  {
    exists j :: 0 <= j < |ContextsOf(k)| && OtherAt(k.picture, ContextsOf(k)[j], k.fate.view.context, x)
  }

  ghost predicate OtherAt(h: Heap, item: Val, current: string, x: Val) {
    item.Map? && Get(h, item.d, Name) != Str(current) && Get(h, item.d, Name) == x
  }

  lemma {:induction false} DisclosesExactly(k: Case, x: Val)
    requires k.answer.doc.Some? && k.fate.Delivered?
    ensures x in IgnoredBy(k, k.fate.view) <==> Discloses(k, x)
  {
    var h, items, current := k.picture, ContextsOf(k), k.fate.view.context;
    IgnoredExact(h, items, current, x);
    if d :| OtherContext(h, items, current, d, x) {
      var j :| 0 <= j < |items| && items[j] == Map(d);
      assert OtherAt(h, items[j], current, x);
    }
    if Discloses(k, x) {
      var j :| 0 <= j < |items| && OtherAt(h, items[j], current, x);
      assert OtherContext(h, items, current, items[j].d, x);
    }
  }

  // Nothing configured, and nothing in the certificate.
  ghost predicate Nameless(k: Case) { k.target.tlsServerName.None? && k.answer.dns == [] && k.answer.ips == [] }

  // Nothing configured, the host not listed, and x the certificate's first name.
  ghost predicate Fallback(k: Case, x: string) {
    var a := k.answer;
    && k.target.tlsServerName.None? && a.host.Some? && a.host.value !in a.dns && a.host.value !in a.ips
    && if a.dns != [] then x == a.dns[0] else a.ips != [] && x == a.ips[0]
  }

  lemma {:induction false} TlsWarningsExactly(k: Case, w: Warning)
    requires Clean(k) && Settled(k)
    ensures w in TlsWarnings(k.target, k.answer) <==>
            && w.target == k.target.name
            && ((w.note.Insecure? && Nameless(k) && k.target.insecureFallback)
                || (w.note.FellBack? && Fallback(k, w.note.name)))
  {
  }

  // A target is delivered exactly when its document parses and names an https server, the forward
  // and the probe come back, there is a TLS name or leave to do without, and no entry of the document
  // carries the generated name.
  lemma {:induction false} DeliveredExactly(k: Case)
    requires Clean(k)
    ensures k.fate.Delivered? <==>
            && k.answer.doc.Some? && Parse(k.picture, k.answer.doc.value).Ok? && k.answer.host.Some?
            && k.answer.forwarded && (k.target.tlsServerName.Some? || k.answer.probed)
            && (k.target.tlsServerName.Some? || k.answer.dns != [] || k.answer.ips != []
                || k.target.insecureFallback)
            && !Taken(k.picture, k.answer.doc.value, "tunstrap-" + k.node + "-" + k.target.name)
  {
    assert NewName(k.node, k.target.name) == "tunstrap-" + k.node + "-" + k.target.name;
  }

  lemma {:induction false} WarningsNamed(k: Case, w: Warning)
    requires w in WarningsOf(k)
    ensures w.target == k.target.name
  {
    if k.fate.Delivered? { DisclosuresExact(k.target.name, IgnoredBy(k, k.fate.view), w); }
  }

  lemma {:induction false} FailureWarned(k: Case)
    ensures Warning(k.target.name, Failure) in WarningsOf(k) <==> !k.fate.Delivered? && !k.fate.Aborted?
  {
    var w := Warning(k.target.name, Failure);
    if k.fate.Delivered? { DisclosuresExact(k.target.name, IgnoredBy(k, k.fate.view), w); }
  }
}
