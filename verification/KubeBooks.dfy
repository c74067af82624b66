/**
  The loop of `run_kube_targets` (tunstrap/kube.py) over all targets of a node:
  what it returns, which listeners it leaves open, what becomes of the documents.
*/
module KubeBooks {
  import opened Wrappers
  import opened Kubeconfig
  import opened KubeRewrite
  import opened KubeTargets

  datatype Books = Books(outputs: seq<Output>, required: seq<string>, warnings: seq<Warning>)

  function Plus(a: Books, b: Books): Books {
    Books(a.outputs + b.outputs, a.required + b.required, a.warnings + b.warnings)
  }

  // What one target contributes, and the picture of its document afterwards.
  datatype Entry = Entry(part: Books, after: Heap)

  ghost predicate Accounts(k: Case, e: Entry) {
    Clean(k) && !k.fate.Aborted? && e.part == Books(OutputOf(k), FailureOf(k), WarningsOf(k)) && Left(k, e.after)
  }

  // The first n contributions put together.
  function Gather(entries: seq<Entry>, n: nat): Books
    requires n <= |entries|
  {
    if n == 0 then Books([], [], []) else Plus(Gather(entries, n - 1), entries[n - 1].part)
  }

  lemma {:induction false} GatherNext(entries: seq<Entry>, e: Entry)
    ensures Gather(entries + [e], |entries| + 1) == Plus(Gather(entries, |entries|), e.part)
  {
    GatherPrefix(entries, [e], |entries|);
  }

  lemma {:induction false} GatherPrefix(entries: seq<Entry>, more: seq<Entry>, n: nat)
    requires n <= |entries|
    ensures Gather(entries + more, n) == Gather(entries, n)
  {
    if n > 0 { GatherPrefix(entries, more, n - 1); }
  }

  // What fewer targets have put into the books comes first in them.
  lemma {:induction false} GatherInOrder(entries: seq<Entry>, n: nat, m: nat)
    requires n <= m <= |entries|
    ensures var a, b := Gather(entries, n), Gather(entries, m);
            a.outputs <= b.outputs && a.required <= b.required && a.warnings <= b.warnings
  {
    if n < m { GatherInOrder(entries, n, m - 1); }
  }

  // The open listeners are exactly those of the outputs, each of which has its own.
  ghost predicate Listening(open: set<nat>, outputs: seq<Output>) {
    && (forall p :: p in open <==> PortOf(outputs, p))
    && (forall j, k :: 0 <= j < k < |outputs| ==> outputs[j].port != outputs[k].port)
  }

  ghost predicate PortOf(outputs: seq<Output>, p: nat) {
    exists j :: 0 <= j < |outputs| && outputs[j].port == p
  }

  lemma {:induction false} ListeningGrows(open: set<nat>, outputs: seq<Output>, o: Output)
    requires Listening(open, outputs) && o.port !in open
    ensures Listening(open + {o.port}, outputs + [o])
  {
    var more := outputs + [o];
    forall p
      ensures p in open + {o.port} <==> PortOf(more, p)
    {
      if p in open {
        var j :| 0 <= j < |outputs| && outputs[j].port == p;
        assert more[j].port == p;
      }
      if p == o.port { assert more[|outputs|].port == p; }
      if PortOf(more, p) && p != o.port {
        var j :| 0 <= j < |more| && more[j].port == p;
        assert outputs[j].port == p;
      }
    }
    forall j, k | 0 <= j < k < |more|
      ensures more[j].port != more[k].port
    {
      assert PortOf(outputs, more[j].port);
    }
  }

  // What a target that has been served adds to the books.
  lemma {:induction false} Booked(k: Case, books: Books, o: Option<Output>, more: seq<Warning>, after: Heap)
    returns (e: Entry)
    requires Clean(k) && !k.fate.Aborted? && Served(k, o, more) && Left(k, after)
    ensures Accounts(k, e) && e.after == after
    ensures Plus(books, e.part)
         == Books(books.outputs + (if o.Some? then [o.value] else []),
                  books.required + (if o.None? && k.target.required then [k.target.name] else []),
                  books.warnings + more)
    ensures OpenedFor(k) == if o.Some? then {k.answer.port} else {}
  {
    e := Entry(Books(OutputOf(k), FailureOf(k), WarningsOf(k)), after);
  }

  // One pass of the loop over the lists it appends to.
  method Append(node: string, c: Connection, t: Target, a: Answer, books: Books, ghost k: Case, ghost ds: set<Dict>)
    returns (raised: bool, next: Books, ghost e: Entry)
    requires k == Case(node, t, a, Snap(ds), k.fate) && Clean(k) && a.port !in c.open
    requires Listening(c.open, books.outputs)
    modifies c, ds
    ensures raised <==> k.fate.Aborted?
    ensures raised ==> next == books && Snap(ds) == k.picture
    ensures !raised ==> Accounts(k, e) && next == Plus(books, e.part) && Snap(ds) == e.after
    ensures !raised ==> Listening(c.open, next.outputs)
    ensures c.open == old(c.open) + OpenedFor(k)
  {
    next, e := books, Entry(Books([], [], []), Snap(ds));
    var o, more;
    raised, o, more := OneTarget(node, c, t, a, k, ds);
    if raised { return; }
    e := Booked(k, books, o, more, Snap(ds));
    next := books.(warnings := books.warnings + more);
    if o.Some? {
      ListeningGrows(old(c.open), books.outputs, o.value);
      next := next.(outputs := next.outputs + [o.value]);
    } else if t.required {
      next := next.(required := next.required + [t.name]);
    }
  }

  // The mappings of all documents.
  ghost function All(docs: seq<set<Dict>>): set<Dict> { set i, d | 0 <= i < |docs| && d in docs[i] :: d }

  // Each target's document is a document of its own, seen as it was fetched.
  ghost predicate Fetched(node: string, targets: seq<Target>, answers: seq<Answer>, cases: seq<Case>,
                          docs: seq<set<Dict>>, from: nat)
    reads All(docs)
    requires |targets| == |answers| == |cases| == |docs|
  {
    forall i :: from <= i < |cases| ==> cases[i] == Case(node, targets[i], answers[i], Snap(docs[i]), cases[i].fate)
  }

  // The system gives out no port that is still in use.
  ghost predicate PortsFree(cases: seq<Case>) {
    forall i, j :: 0 <= i < j < |cases| && cases[i].fate.Delivered? ==> cases[i].answer.port != cases[j].answer.port
  }

  // The fates of the first n targets are the ones their answers and documents decide.
  ghost predicate Ready(cases: seq<Case>, n: nat)
    requires n <= |cases|
  {
    n == 0 || (Ready(cases, n - 1) && Clean(cases[n - 1]))
  }

  lemma {:induction false} ReadyAt(cases: seq<Case>, n: nat, i: nat)
    requires i < n <= |cases| && Ready(cases, n)
    ensures Clean(cases[i])
  {
    if i < n - 1 { ReadyAt(cases, n - 1, i); }
  }

  // The first n targets are accounted for by the first n entries.
  ghost predicate Accounted(cases: seq<Case>, entries: seq<Entry>, n: nat)
    requires n <= |cases| && n <= |entries|
  {
    n == 0 || (Accounted(cases, entries, n - 1) && Accounts(cases[n - 1], entries[n - 1]))
  }

  lemma {:induction false} AccountedAt(cases: seq<Case>, entries: seq<Entry>, n: nat, i: nat)
    requires i < n <= |cases| && n <= |entries| && Accounted(cases, entries, n)
    ensures Accounts(cases[i], entries[i])
  {
    if i == n - 1 {
      var k, e := cases[n - 1], entries[n - 1];
      assert Accounts(k, e) && cases[i] == k && entries[i] == e;
    } else {
      AccountedAt(cases, entries, n - 1, i);
    }
  }

  // Where the loop stands after the first targets.
  ghost predicate Going(cases: seq<Case>, entries: seq<Entry>, books: Books, open: set<nat>) {
    && |entries| <= |cases| && Accounted(cases, entries, |entries|)
    && books == Gather(entries, |entries|) && Listening(open, books.outputs)
  }

  lemma {:induction false} GoingNext(cases: seq<Case>, entries: seq<Entry>, books: Books, open: set<nat>,
                                     e: Entry, next: Books, nowOpen: set<nat>)
    requires Going(cases, entries, books, open) && |entries| < |cases|
    requires Accounts(cases[|entries|], e) && next == Plus(books, e.part) && Listening(nowOpen, next.outputs)
    ensures Going(cases, entries + [e], next, nowOpen)
  {
    GatherNext(entries, e);
    AccountedNext(cases, entries, e);
  }

  lemma {:induction false} AccountedNext(cases: seq<Case>, entries: seq<Entry>, e: Entry)
    requires |entries| < |cases| && Accounted(cases, entries, |entries|) && Accounts(cases[|entries|], e)
    ensures Accounted(cases, entries + [e], |entries| + 1)
  {
    AccountedPrefix(cases, entries, [e], |entries|);
  }

  lemma {:induction false} AccountedPrefix(cases: seq<Case>, entries: seq<Entry>, more: seq<Entry>, n: nat)
    requires n <= |cases| && n <= |entries| && Accounted(cases, entries, n)
    ensures Accounted(cases, entries + more, n)
  {
    if n > 0 {
      AccountedPrefix(cases, entries, more, n - 1);
      assert (entries + more)[n - 1] == entries[n - 1];
    }
  }

  lemma {:induction false} OutputGathered(entries: seq<Entry>, n: nat, o: Output)
    requires n <= |entries|
    ensures o in Gather(entries, n).outputs <==> exists i :: 0 <= i < n && o in entries[i].part.outputs
  {
    if n > 0 { OutputGathered(entries, n - 1, o); }
  }

  lemma {:induction false} NamedByTarget(k: Case, o: Output)
    requires o in OutputOf(k)
    ensures o.name == k.target.name && o.port == k.answer.port && OutputOf(k) == [o] && k.fate.Delivered?
  {
  }

  // Every listener in use was opened for a target delivered before.
  lemma {:induction false} OpenedBefore(cases: seq<Case>, entries: seq<Entry>, o: Output) returns (i: nat)
    requires |entries| <= |cases| && Accounted(cases, entries, |entries|) && o in Gather(entries, |entries|).outputs
    ensures i < |entries| && cases[i].fate.Delivered? && cases[i].answer.port == o.port
  {
    OutputGathered(entries, |entries|, o);
    i :| 0 <= i < |entries| && o in entries[i].part.outputs;
    AccountedAt(cases, entries, |entries|, i);
    NamedByTarget(cases[i], o);
  }

  lemma {:induction false} PortFree(cases: seq<Case>, entries: seq<Entry>, books: Books, open: set<nat>)
    requires Going(cases, entries, books, open) && |entries| < |cases| && PortsFree(cases)
    ensures cases[|entries|].answer.port !in open
  {
    var p := cases[|entries|].answer.port;
    if PortOf(books.outputs, p) {
      var j :| 0 <= j < |books.outputs| && books.outputs[j].port == p;
      var i := OpenedBefore(cases, entries, books.outputs[j]);
    }
  }

  // Where an exception has left the loop: the first targets are accounted for, and open are the
  // listeners of their outputs and the one the exception met.
  ghost predicate Broken(cases: seq<Case>, entries: seq<Entry>, open: set<nat>) {
    && |entries| < |cases| && Accounted(cases, entries, |entries|) && cases[|entries|].fate.Aborted?
    && forall p :: p in open <==> PortOf(Gather(entries, |entries|).outputs, p) || p in OpenedFor(cases[|entries|])
  }

  lemma {:induction false} Breaks(cases: seq<Case>, entries: seq<Entry>, books: Books, open: set<nat>)
    requires Going(cases, entries, books, open) && |entries| < |cases| && cases[|entries|].fate.Aborted?
    ensures Broken(cases, entries, open + OpenedFor(cases[|entries|]))
  {
  }

  // One pass, and where the loop stands after it.
  method Pass(node: string, c: Connection, t: Target, a: Answer, books: Books,
              ghost cases: seq<Case>, ghost entries: seq<Entry>, ghost ds: set<Dict>)
    returns (raised: bool, next: Books, ghost grown: seq<Entry>)
    requires Going(cases, entries, books, c.open) && |entries| < |cases| && PortsFree(cases)
    requires Ready(cases, |cases|)
    requires cases[|entries|] == Case(node, t, a, Snap(ds), cases[|entries|].fate)
    modifies c, ds
    ensures raised ==> Broken(cases, entries, c.open) && grown == entries && Snap(ds) == old(Snap(ds))
    ensures !raised ==> Going(cases, grown, next, c.open)
    ensures !raised ==> |grown| == |entries| + 1 && entries <= grown && grown[|entries|].after == Snap(ds)
  {
    PortFree(cases, entries, books, c.open);
    ReadyAt(cases, |cases|, |entries|);
    ghost var open := c.open;
    ghost var e;
    raised, next, e := Append(node, c, t, a, books, cases[|entries|], ds);
    grown := entries;
    if raised {
      Breaks(cases, entries, books, open);
    } else {
      GoingNext(cases, entries, books, open, e, next, c.open);
      grown := entries + [e];
    }
  }

  // The documents of the targets done with are left as accounted; the others are as they were fetched.
  ghost predicate DocsStand(node: string, targets: seq<Target>, answers: seq<Answer>, cases: seq<Case>,
                            docs: seq<set<Dict>>, entries: seq<Entry>)
    reads All(docs)
    requires |targets| == |answers| == |cases| == |docs|
  {
    && |entries| <= |docs| && Fetched(node, targets, answers, cases, docs, |entries|)
    && forall i :: 0 <= i < |entries| ==> Snap(docs[i]) == entries[i].after
  }

  ghost predicate Apart(docs: seq<set<Dict>>) { forall i, j :: 0 <= i < j < |docs| ==> docs[i] !! docs[j] }

  // One turn of the loop, as the documents see it.
  method Turn(node: string, c: Connection, targets: seq<Target>, answers: seq<Answer>, i: nat, books: Books,
              ghost cases: seq<Case>, ghost docs: seq<set<Dict>>, ghost entries: seq<Entry>)
    returns (raised: bool, next: Books, ghost grown: seq<Entry>)
    requires |targets| == |answers| == |cases| == |docs| && Apart(docs) && i == |entries| < |docs|
    requires DocsStand(node, targets, answers, cases, docs, entries) && Going(cases, entries, books, c.open)
    requires Ready(cases, |cases|) && PortsFree(cases)
    modifies c, All(docs)
    ensures raised ==> Broken(cases, entries, c.open) && grown == entries
    ensures !raised ==> |grown| == i + 1 && Going(cases, grown, next, c.open)
    ensures DocsStand(node, targets, answers, cases, docs, grown)
  {
    assert docs[i] <= All(docs);
    raised, next, grown := Pass(node, c, targets[i], answers[i], books, cases, entries, docs[i]);
    forall j | 0 <= j < |docs| && j != i
      ensures Snap(docs[j]) == old(Snap(docs[j]))
    {
    }
  }

  // The loop. `entries` says what each target contributed.
  method Loop(node: string, c: Connection, targets: seq<Target>, answers: seq<Answer>,
              ghost cases: seq<Case>, ghost docs: seq<set<Dict>>)
    returns (raised: bool, books: Books, ghost entries: seq<Entry>)
    requires |targets| == |answers| == |cases| == |docs| && Fetched(node, targets, answers, cases, docs, 0)
    requires Apart(docs) && Ready(cases, |cases|) && PortsFree(cases) && c.open == {}
    modifies c, All(docs)
    ensures raised ==> Broken(cases, entries, c.open)
    ensures !raised ==> |entries| == |cases| && Going(cases, entries, books, c.open)
    ensures DocsStand(node, targets, answers, cases, docs, entries)
  {
    raised, books, entries := false, Books([], [], []), [];
    var i := 0;
    while i < |targets|
      invariant 0 <= i <= |targets| && |entries| == i && Going(cases, entries, books, c.open) && !raised
      invariant DocsStand(node, targets, answers, cases, docs, entries)
    {
      raised, books, entries := Turn(node, c, targets, answers, i, books, cases, docs, entries);
      if raised { return; }
      i := i + 1;
    }
  }

  // It returns its books unless an exception of a forward or a probe escapes.
  method Run(node: string, c: Connection, targets: seq<Target>, answers: seq<Answer>,
             ghost cases: seq<Case>, ghost docs: seq<set<Dict>>)
    returns (r: Option<Books>, ghost entries: seq<Entry>)
    requires |targets| == |answers| == |cases| == |docs| && Fetched(node, targets, answers, cases, docs, 0)
    requires Apart(docs) && Ready(cases, |cases|) && PortsFree(cases) && c.open == {}
    modifies c, All(docs)
    ensures r.Some? <==> NoneAborted(cases)
    ensures r.Some? ==> |entries| == |cases| && Going(cases, entries, r.value, c.open)
    ensures r.None? ==> Broken(cases, entries, c.open)
    ensures DocsStand(node, targets, answers, cases, docs, entries)
  {
    var raised, books;
    raised, books, entries := Loop(node, c, targets, answers, cases, docs);
    if raised { return None, entries; }
    AllServed(cases, entries);
    return Some(books), entries;
  }

  ghost predicate NoneAborted(cases: seq<Case>) { forall i :: 0 <= i < |cases| ==> !cases[i].fate.Aborted? }

  lemma {:induction false} AllServed(cases: seq<Case>, entries: seq<Entry>)
    requires |entries| == |cases| && Accounted(cases, entries, |cases|)
    ensures NoneAborted(cases)
  {
    forall i | 0 <= i < |cases|
      ensures !cases[i].fate.Aborted?
    {
      AccountAt(cases, entries, i);
    }
  }

  // --------------------------------------------------------------- what it means

  ghost predicate DistinctTargets(cases: seq<Case>) {
    forall i, j :: 0 <= i < |cases| && 0 <= j < |cases| && cases[i].target.name == cases[j].target.name ==> i == j
  }

  // The account of one target, looked up.
  lemma {:induction false} AccountAt(cases: seq<Case>, entries: seq<Entry>, i: nat)
    requires |entries| == |cases| && Accounted(cases, entries, |cases|) && i < |cases|
    ensures Accounts(cases[i], entries[i])
  {
    AccountedAt(cases, entries, |cases|, i);
  }



  lemma {:induction false} FailureGathered(entries: seq<Entry>, n: nat, name: string)
    requires n <= |entries|
    ensures name in Gather(entries, n).required <==> exists i :: 0 <= i < n && name in entries[i].part.required
  {
    if n > 0 { FailureGathered(entries, n - 1, name); }
  }

  lemma {:induction false} WarningGathered(entries: seq<Entry>, n: nat, w: Warning)
    requires n <= |entries|
    ensures w in Gather(entries, n).warnings <==> exists i :: 0 <= i < n && w in entries[i].part.warnings
  {
    if n > 0 { WarningGathered(entries, n - 1, w); }
  }

  // The output of a target is the one delivered for it, with its own port; there is one exactly
  // when the target was delivered.
  lemma {:induction false} OutputsExact(cases: seq<Case>, entries: seq<Entry>, i: nat, o: Output)
    requires |entries| == |cases| && Accounted(cases, entries, |cases|) && i < |cases| && DistinctTargets(cases)
    requires o.name == cases[i].target.name
    ensures o in Gather(entries, |entries|).outputs <==> OutputOf(cases[i]) == [o]
  {
    OutputGathered(entries, |entries|, o);
    AccountAt(cases, entries, i);
    if o in Gather(entries, |entries|).outputs {
      var j: nat :| j < |entries| && o in entries[j].part.outputs;
      AccountAt(cases, entries, j);
      NamedByTarget(cases[j], o);
    } else {
      assert o !in entries[i].part.outputs;
    }
  }


  lemma {:induction false} FailuresExact(cases: seq<Case>, entries: seq<Entry>, i: nat)
    requires |entries| == |cases| && Accounted(cases, entries, |cases|) && i < |cases| && DistinctTargets(cases)
    ensures cases[i].target.name in Gather(entries, |entries|).required
       <==> cases[i].target.required && !cases[i].fate.Delivered?
  {
    var name := cases[i].target.name;
    FailureGathered(entries, |entries|, name);
    AccountAt(cases, entries, i);
    if name in Gather(entries, |entries|).required {
      var j: nat :| j < |entries| && name in entries[j].part.required;
      AccountAt(cases, entries, j);
      FailureNamed(cases[j], name);
    } else {
      assert name !in entries[i].part.required;
    }
  }

  lemma {:induction false} FailureNamed(k: Case, name: string)
    requires name in FailureOf(k)
    ensures name == k.target.name && k.target.required && !k.fate.Delivered?
  {
  }

  // The warnings under a target's name are the warnings of that target.
  lemma {:induction false} WarningsExact(cases: seq<Case>, entries: seq<Entry>, i: nat, w: Warning)
    requires |entries| == |cases| && Accounted(cases, entries, |cases|) && i < |cases| && DistinctTargets(cases)
    requires w.target == cases[i].target.name
    ensures w in Gather(entries, |entries|).warnings <==> w in WarningsOf(cases[i])
  {
    WarningGathered(entries, |entries|, w);
    AccountAt(cases, entries, i);
    if w in Gather(entries, |entries|).warnings {
      var j: nat :| j < |entries| && w in entries[j].part.warnings;
      AccountAt(cases, entries, j);
      WarningsNamed(cases[j], w);
    } else {
      assert w !in entries[i].part.warnings;
    }
  }

  ghost predicate Named(outputs: seq<Output>, name: string) {
    exists o :: o in outputs && o.name == name
  }

  lemma {:induction false} NamedExact(cases: seq<Case>, entries: seq<Entry>, i: nat)
    requires |entries| == |cases| && Accounted(cases, entries, |cases|) && i < |cases| && DistinctTargets(cases)
    ensures Named(Gather(entries, |entries|).outputs, cases[i].target.name) <==> cases[i].fate.Delivered?
  {
    var name, outputs := cases[i].target.name, Gather(entries, |entries|).outputs;
    if cases[i].fate.Delivered? {
      OutputsExact(cases, entries, i, OutputOf(cases[i])[0]);
    }
    if Named(outputs, name) {
      var o :| o in outputs && o.name == name;
      OutputsExact(cases, entries, i, o);
    }
  }

  // Every target is an output or has a failure warning, never both; it is listed as a required
  // failure exactly when it is required and not an output. What else is said of it: each other
  // context of its document is disclosed exactly when the target was delivered, its document having
  // become the renamed picture of the patched one; that verification is turned off, and a name that
  // was fallen back to, exactly when that is what the certificate and the target came to.
  lemma {:induction false} EveryTargetAccounted(cases: seq<Case>, entries: seq<Entry>, i: nat, w: Warning)
    requires |entries| == |cases| && Accounted(cases, entries, |cases|) && i < |cases| && DistinctTargets(cases)
    requires w.target == cases[i].target.name
    ensures var name, books := cases[i].target.name, Gather(entries, |entries|);
            && (Named(books.outputs, name) <==> Warning(name, Failure) !in books.warnings)
            && (name in books.required <==> cases[i].target.required && !Named(books.outputs, name))
    ensures Clean(cases[i]) && (Named(Gather(entries, |entries|).outputs, cases[i].target.name) ==>
                                  Rewritten(cases[i], entries[i].after))
    ensures w in Gather(entries, |entries|).warnings <==>
            var k := cases[i];
            match w.note
            case Failure => !Named(Gather(entries, |entries|).outputs, k.target.name)
            case Insecure => Settled(k) && Nameless(k) && k.target.insecureFallback
            case FellBack(x) => Settled(k) && Fallback(k, x)
            case Disclosure(x) => k.fate.Delivered? && k.answer.doc.Some? && Discloses(k, x)
  {
    var k := cases[i];
    NamedExact(cases, entries, i);
    FailuresExact(cases, entries, i);
    WarningsExact(cases, entries, i, w);
    WarningsExact(cases, entries, i, Warning(k.target.name, Failure));
    AccountAt(cases, entries, i);
    FailureWarned(k);
    WarningsExactly(k, w);
  }

  // The required failures keep the order of the targets and repeat nothing.
  lemma {:induction false} RequiredFailuresInOrder(cases: seq<Case>, entries: seq<Entry>, n: nat, j: nat, k: nat)
    returns (x: nat, y: nat)
    requires n <= |entries| == |cases| && Accounted(cases, entries, |cases|) && j < k < |Gather(entries, n).required|
    ensures x < y < n
    ensures cases[x].target.name == Gather(entries, n).required[j]
    ensures cases[y].target.name == Gather(entries, n).required[k]
  {
    OneFailureEach(cases, entries);
    x, y := FailuresInOrder(entries, n, j, k);
    FailureAt(cases, entries, x, Gather(entries, n).required[j]);
    FailureAt(cases, entries, y, Gather(entries, n).required[k]);
  }

  lemma {:induction false} FailureAt(cases: seq<Case>, entries: seq<Entry>, i: nat, name: string)
    requires |entries| == |cases| && Accounted(cases, entries, |cases|) && i < |cases|
    requires name in entries[i].part.required
    ensures cases[i].target.name == name
  {
    AccountAt(cases, entries, i);
    FailureNamed(cases[i], name);
  }

  ghost predicate AtMostOne(entries: seq<Entry>) {
    forall i :: 0 <= i < |entries| ==> |entries[i].part.required| <= 1
  }

  lemma {:induction false} OneFailureEach(cases: seq<Case>, entries: seq<Entry>)
    requires |entries| == |cases| && Accounted(cases, entries, |cases|)
    ensures AtMostOne(entries)
  {
    forall i | 0 <= i < |entries|
      ensures |entries[i].part.required| <= 1
    {
      AccountAt(cases, entries, i);
    }
  }

  lemma {:induction false} FailuresInOrder(entries: seq<Entry>, n: nat, j: nat, k: nat) returns (x: nat, y: nat)
    requires n <= |entries| && j < k < |Gather(entries, n).required| && AtMostOne(entries)
    ensures x < y < n
    ensures Gather(entries, n).required[j] in entries[x].part.required
    ensures Gather(entries, n).required[k] in entries[y].part.required
  {
    if k < |Gather(entries, n - 1).required| {
      x, y := FailuresInOrder(entries, n - 1, j, k);
    } else {
      x := IndexOfFailure(entries, n - 1, j);
      y := n - 1;
    }
  }

  lemma {:induction false} IndexOfFailure(entries: seq<Entry>, n: nat, j: nat) returns (x: nat)
    requires n <= |entries| && j < |Gather(entries, n).required|
    ensures x < n && Gather(entries, n).required[j] in entries[x].part.required
  {
    if j < |Gather(entries, n - 1).required| {
      x := IndexOfFailure(entries, n - 1, j);
    } else {
      x := n - 1;
    }
  }
}
