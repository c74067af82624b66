/**
  Names of kube identities and of materialized files (tunstrap/schemas.py), the
  validator that keeps them apart, and the name checks of the session directory
  they are written into (tunstrap/session.py).
*/
module SchemaNames {
  import opened Wrappers
  import opened Kubeconfig

  // A node with the keys of its kube_targets and fetch_files, in input order.
  datatype Node = Node(name: string, kube: seq<string>, fetch: seq<string>)

  datatype Kind = Kube | Fetch

  datatype Item = Item(kind: Kind, node: string, name: string)

  function Prefix(kind: Kind): string { if kind == Kube then "kube" else "fetch" }

  // materialized_file_name
  function Leaf(i: Item): string { Prefix(i.kind) + "-" + i.node + "-" + i.name }

  // -------------------------------------------------------------- the validator

  datatype Collision = IdentityCollision(joined: string) | LeafCollision(leaf: string)

  ghost predicate Distinct<T>(s: seq<T>) { forall i, j :: 0 <= i < j < |s| ==> s[i] != s[j] }

  function ItemsOf(kind: Kind, node: string, names: seq<string>): seq<Item> {
    if names == [] then []
    else ItemsOf(kind, node, names[..|names| - 1]) + [Item(kind, node, names[|names| - 1])]
  }

  // All items in the order the validator meets them; only the kube ones have identities.
  function KubeItems(nodes: seq<Node>): seq<Item> {
    if nodes == [] then []
    else var n := nodes[|nodes| - 1]; KubeItems(nodes[..|nodes| - 1]) + ItemsOf(Kube, n.name, n.kube)
  }

  function AllItems(nodes: seq<Node>): seq<Item> {
    if nodes == [] then []
    else
      var n := nodes[|nodes| - 1];
      AllItems(nodes[..|nodes| - 1]) + ItemsOf(Kube, n.name, n.kube) + ItemsOf(Fetch, n.name, n.fetch)
  }

  function Identity(i: Item): string { NewName(i.node, i.name) }

  function Rendered(items: seq<Item>, render: Item -> string): seq<string> {
    if items == [] then [] else Rendered(items[..|items| - 1], render) + [render(items[|items| - 1])]
  }

  // No two of the given items render to the same name.
  ghost predicate Unique(items: seq<Item>, render: Item -> string) { Distinct(Rendered(items, render)) }

  lemma {:induction false} RenderedAt(items: seq<Item>, render: Item -> string, k: nat)
    requires k < |items|
    ensures |Rendered(items, render)| == |items| && Rendered(items, render)[k] == render(items[k])
  {
    if |items| > 1 { RenderedAt(items[..|items| - 1], render, if k < |items| - 1 then k else 0); }
  }

  // Two of the given items render to this name.
  ghost predicate Twice(items: seq<Item>, render: Item -> string, x: string) {
    exists i, j :: 0 <= i < j < |items| && render(items[i]) == x && render(items[j]) == x
  }

  // A collision met early is a collision of the whole.
  lemma {:induction false} TwicePrefix(s: seq<Item>, t: seq<Item>, render: Item -> string, x: string)
    requires s <= t && Twice(s, render, x)
    ensures Twice(t, render, x) && !Unique(t, render)
  {
    var i, j :| 0 <= i < j < |s| && render(s[i]) == x && render(s[j]) == x;
    assert t[i] == s[i] && t[j] == s[j];
    RenderedAt(t, render, i);
    RenderedAt(t, render, j);
  }

  lemma {:induction false} MetAgain(items: seq<Item>, item: Item, render: Item -> string)
    requires render(item) in Rendered(items, render)
    ensures Twice(items + [item], render, render(item))
  {
    if items != [] { RenderedAt(items, render, 0); }
    var k :| 0 <= k < |Rendered(items, render)| && Rendered(items, render)[k] == render(item);
    RenderedAt(items, render, k);
    var more := items + [item];
    assert more[k] == items[k] && more[|items|] == item;
  }

  lemma {:induction false} UniqueGrows(s: seq<Item>, x: Item, render: Item -> string)
    ensures Rendered(s + [x], render) == Rendered(s, render) + [render(x)]
    ensures Unique(s + [x], render) <==> Unique(s, render) && render(x) !in Rendered(s, render)
  {
    assert (s + [x])[..|s|] == s;
    var r, t := Rendered(s, render), Rendered(s + [x], render);
    assert forall i :: 0 <= i < |r| ==> t[i] == r[i];
    if Unique(s + [x], render) {
      assert forall i :: 0 <= i < |r| ==> t[i] != t[|r|];
    }
  }

  lemma {:induction false} ItemsPrefix(kind: Kind, node: string, names: seq<string>, k: nat)
    requires k <= |names|
    ensures ItemsOf(kind, node, names[..k]) <= ItemsOf(kind, node, names)
  {
    if k == |names| {
      assert names[..k] == names;
    } else {
      ItemsPrefix(kind, node, names[..|names| - 1], k);
      assert names[..|names| - 1][..k] == names[..k];
    }
  }

  lemma {:induction false} NodesPrefix(nodes: seq<Node>, i: nat)
    requires i < |nodes|
    ensures KubeItems(nodes[..i]) + ItemsOf(Kube, nodes[i].name, nodes[i].kube) <= KubeItems(nodes)
    ensures var n := nodes[i];
            AllItems(nodes[..i]) + ItemsOf(Kube, n.name, n.kube) + ItemsOf(Fetch, n.name, n.fetch) <= AllItems(nodes)
  {
    if i < |nodes| - 1 {
      NodesPrefix(nodes[..|nodes| - 1], i);
      assert nodes[..|nodes| - 1][..i] == nodes[..i];
    }
  }

  // The set holds the renderings of the items met so far, which are all different.
  ghost predicate Seen(seen: set<string>, items: seq<Item>, render: Item -> string) {
    Unique(items, render) && forall x :: x in seen <==> x in Rendered(items, render)
  }

  lemma {:induction false} SeenGrows(seen: set<string>, items: seq<Item>, item: Item, render: Item -> string)
    requires Seen(seen, items, render)
    ensures render(item) !in seen ==> Seen(seen + {render(item)}, items + [item], render)
    ensures render(item) in seen ==> Twice(items + [item], render, render(item))
  {
    UniqueGrows(items, item, render);
    if render(item) in seen { MetAgain(items, item, render); }
  }

  // The innermost loop: the names of one node's one dictionary, rendered one by one.
  method Absorb(seen: set<string>, ghost met: seq<Item>, kind: Kind, node: string, names: seq<string>,
                render: Item -> string)
    returns (all: set<string>, dup: Option<string>)
    requires Seen(seen, met, render)
    ensures dup.None? ==> Seen(all, met + ItemsOf(kind, node, names), render)
    ensures dup.Some? ==> Twice(met + ItemsOf(kind, node, names), render, dup.value)
    ensures dup.None? <==> Unique(met + ItemsOf(kind, node, names), render)
  {
    all := seen;
    var k := 0;
    ghost var sofar := met;
    assert met + ItemsOf(kind, node, names[..0]) == met;
    while k < |names|
      invariant 0 <= k <= |names|
      invariant sofar == met + ItemsOf(kind, node, names[..k]) && Seen(all, sofar, render)
    {
      var item := Item(kind, node, names[k]);
      var name := render(item);
      SeenGrows(all, sofar, item, render);
      NextItem(met, kind, node, names, k);
      if name in all {
        TwicePrefix(sofar + [item], met + ItemsOf(kind, node, names), render, name);
        return all, Some(name);
      }
      all := all + {name};
      sofar := sofar + [item];
      k := k + 1;
    }
    assert names[..k] == names;
    return all, None;
  }

  lemma {:induction false} NextItem(met: seq<Item>, kind: Kind, node: string, names: seq<string>, k: nat)
    requires k < |names|
    ensures met + ItemsOf(kind, node, names[..k + 1])
         == met + ItemsOf(kind, node, names[..k]) + [Item(kind, node, names[k])]
    ensures met + ItemsOf(kind, node, names[..k + 1]) <= met + ItemsOf(kind, node, names)
  {
    assert names[..k + 1][..k] == names[..k];
    ItemsPrefix(kind, node, names, k + 1);
  }

  // The identity loops accept exactly when all identities are pairwise distinct.
  method CheckIdentities(nodes: seq<Node>) returns (r: Option<Collision>)
    ensures r.None? <==> Unique(KubeItems(nodes), Identity)
    ensures r.Some? ==> r.value.IdentityCollision? && Twice(KubeItems(nodes), Identity, r.value.joined)
  {
    var seen: set<string> := {};
    var i := 0;
    while i < |nodes|
      invariant 0 <= i <= |nodes|
      invariant Seen(seen, KubeItems(nodes[..i]), Identity)
    {
      assert nodes[..i + 1][..i] == nodes[..i];
      var dup;
      seen, dup := Absorb(seen, KubeItems(nodes[..i]), Kube, nodes[i].name, nodes[i].kube, Identity);
      if dup.Some? {
        NodesPrefix(nodes, i);
        TwicePrefix(KubeItems(nodes[..i]) + ItemsOf(Kube, nodes[i].name, nodes[i].kube), KubeItems(nodes),
                    Identity, dup.value);
        return Some(IdentityCollision(dup.value));
      }
      i := i + 1;
    }
    assert nodes[..i] == nodes;
    return None;
  }

  function ItemsOfNode(n: Node): seq<Item> { ItemsOf(Kube, n.name, n.kube) + ItemsOf(Fetch, n.name, n.fetch) }

  // Both dictionaries of one node.
  method AbsorbNode(seen: set<string>, ghost met: seq<Item>, n: Node) returns (all: set<string>, dup: Option<string>)
    requires Seen(seen, met, Leaf)
    ensures dup.None? ==> Seen(all, met + ItemsOfNode(n), Leaf)
    ensures dup.Some? ==> Twice(met + ItemsOfNode(n), Leaf, dup.value)
  {
    ghost var withKube := met + ItemsOf(Kube, n.name, n.kube);
    assert met + ItemsOfNode(n) == withKube + ItemsOf(Fetch, n.name, n.fetch);
    all, dup := Absorb(seen, met, Kube, n.name, n.kube, Leaf);
    if dup.Some? {
      TwicePrefix(withKube, met + ItemsOfNode(n), Leaf, dup.value);
      return;
    }
    all, dup := Absorb(all, withKube, Fetch, n.name, n.fetch, Leaf);
  }

  lemma {:induction false} NextNode(nodes: seq<Node>, i: nat)
    requires i < |nodes|
    ensures AllItems(nodes[..i + 1]) == AllItems(nodes[..i]) + ItemsOfNode(nodes[i])
    ensures AllItems(nodes[..i]) + ItemsOfNode(nodes[i]) <= AllItems(nodes)
  {
    assert nodes[..i + 1][..i] == nodes[..i];
    NodesPrefix(nodes, i);
    var met, n := AllItems(nodes[..i]), nodes[i];
    var kube, fetch := ItemsOf(Kube, n.name, n.kube), ItemsOf(Fetch, n.name, n.fetch);
    assert met + (kube + fetch) == met + kube + fetch;
  }

  // The leaf loops accept exactly when all leaf names are pairwise distinct.
  method CheckLeaves(nodes: seq<Node>) returns (r: Option<Collision>)
    ensures r.None? <==> Unique(AllItems(nodes), Leaf)
    ensures r.Some? ==> r.value.LeafCollision? && Twice(AllItems(nodes), Leaf, r.value.leaf)
  {
    var seen: set<string> := {};
    var i := 0;
    while i < |nodes|
      invariant 0 <= i <= |nodes|
      invariant Seen(seen, AllItems(nodes[..i]), Leaf)
    {
      NextNode(nodes, i);
      var dup;
      seen, dup := AbsorbNode(seen, AllItems(nodes[..i]), nodes[i]);
      if dup.Some? {
        TwicePrefix(AllItems(nodes[..i]) + ItemsOfNode(nodes[i]), AllItems(nodes), Leaf, dup.value);
        return Some(LeafCollision(dup.value));
      }
      i := i + 1;
    }
    assert nodes[..i] == nodes;
    return None;
  }

  // _validate_kube_identity_names_are_unique
  method Validate(nodes: seq<Node>) returns (r: Option<Collision>)
    ensures r.None? <==> Unique(KubeItems(nodes), Identity) && Unique(AllItems(nodes), Leaf)
    ensures r.Some? && r.value.IdentityCollision? <==> !Unique(KubeItems(nodes), Identity)
    ensures r.Some? ==> (match r.value
                         case IdentityCollision(x) => Twice(KubeItems(nodes), Identity, x)
                         case LeafCollision(x) => Twice(AllItems(nodes), Leaf, x))
  {
    r := CheckIdentities(nodes);
    if r.None? { r := CheckLeaves(nodes); }
  }

  // --------------------------------------------------------------- what it buys

  // The validator looks at every key of every dictionary, and at nothing else.
  lemma {:induction false} ItemsExactly(nodes: seq<Node>, x: Item)
    ensures x in AllItems(nodes) <==> exists k :: 0 <= k < |nodes| && KeyOf(nodes[k], x)
    ensures x in KubeItems(nodes) <==> x.kind == Kube && exists k :: 0 <= k < |nodes| && KeyOf(nodes[k], x)
  {
    if nodes != [] {
      var front, last := nodes[..|nodes| - 1], nodes[|nodes| - 1];
      ItemsExactly(front, x);
      ItemsOfExactly(Kube, last.name, last.kube, x);
      ItemsOfExactly(Fetch, last.name, last.fetch, x);
      if k :| 0 <= k < |front| && KeyOf(front[k], x) { assert KeyOf(nodes[k], x); }
      if k :| 0 <= k < |nodes| && KeyOf(nodes[k], x) { assert k == |front| || KeyOf(front[k], x); }
    }
  }

  predicate KeyOf(n: Node, x: Item) { x.node == n.name && x.name in if x.kind == Kube then n.kube else n.fetch }

  lemma {:induction false} ItemsOfExactly(kind: Kind, node: string, names: seq<string>, x: Item)
    ensures x in ItemsOf(kind, node, names) <==> x.kind == kind && x.node == node && x.name in names
  {
    if names != [] {
      var front, last := names[..|names| - 1], names[|names| - 1];
      ItemsOfExactly(kind, node, front, x);
      assert names == front + [last];
    }
  }

  // The names themselves.
  lemma {:induction false} NamesSpelled(node: string, name: string)
    ensures Leaf(Item(Kube, node, name)) == "kube-" + node + "-" + name
    ensures Leaf(Item(Fetch, node, name)) == "fetch-" + node + "-" + name
    ensures Identity(Item(Kube, node, name)) == "tunstrap-" + node + "-" + name
  {
    assert "kube" + "-" == "kube-" && "fetch" + "-" == "fetch-";
  }

  // In an accepted schema two different items never share a file.
  lemma {:induction false} ItemsHaveOwnFiles(items: seq<Item>, x: Item, y: Item)
    requires Unique(items, Leaf) && x in items && y in items && x != y
    ensures Leaf(x) != Leaf(y)
  {
    var i :| 0 <= i < |items| && items[i] == x;
    var j :| 0 <= j < |items| && items[j] == y;
    RenderedAt(items, Leaf, i);
    RenderedAt(items, Leaf, j);
  }

  // Joining with dashes is not injective: exactly when one node name continues the other with a
  // dash and the rest moves over to the target name.
  lemma {:induction false} JoinCollides(a: string, s: string, b: string, t: string)
    ensures NewName(a, s) == NewName(b, t) <==> (a == b && s == t) || Shifts(a, s, b, t) || Shifts(b, t, a, s)
  {
    if |a| <= |b| {
      LongerSecond(a, s, b, t);
    } else {
      LongerSecond(b, t, a, s);
    }
  }

  // The generated name says the same as the two parts with a dash between them.
  lemma {:induction false} JoinedParts(a: string, s: string, b: string, t: string)
    ensures NewName(a, s) == NewName(b, t) <==> a + "-" + s == b + "-" + t
  {
    var u, v := a + "-" + s, b + "-" + t;
    assert NewName(a, s) == "tunstrap-" + u;
    assert NewName(b, t) == "tunstrap-" + v;
    assert u == ("tunstrap-" + u)[9..] && v == ("tunstrap-" + v)[9..];
  }

  lemma {:induction false} LongerSecond(a: string, s: string, b: string, t: string)
    requires |a| <= |b|
    ensures NewName(a, s) == NewName(b, t) <==> (a == b && s == t) || Shifts(a, s, b, t)
  {
    JoinedParts(a, s, b, t);
    if Shifts(a, s, b, t) {
      var x := b[|a| + 1..];
      assert a + "-" + (x + "-" + t) == a + "-" + x + "-" + t;
    }
    if a + "-" + s == b + "-" + t {
      SplitDash(a, s, b, t);
    }
  }

  lemma {:induction false} SplitDash(a: string, s: string, b: string, t: string)
    requires |a| <= |b| && a + "-" + s == b + "-" + t
    ensures (a == b && s == t) || Shifts(a, s, b, t)
  {
    var u := a + "-" + s;
    var v := b + "-" + t;
    assert u[..|a|] == a && v[..|b|] == b && b[..|a|] == v[..|a|];
    assert u[|a| + 1..] == s && v[|b| + 1..] == t;
    if |a| < |b| {
      var x := b[|a| + 1..];
      assert b[|a|] == v[|a|] == u[|a|] == '-';
      assert b == a + "-" + x;
      assert s[|x|] == u[|b|] == v[|b|] == '-';
      assert s[..|x|] == u[|a| + 1..|b|] == v[|a| + 1..|b|] == x;
      assert s[|x| + 1..] == u[|b| + 1..] == t;
      assert s == s[..|x|] + [s[|x|]] + s[|x| + 1..];
    }
  }

  ghost predicate Shifts(a: string, s: string, b: string, t: string) {
    |a| < |b| && b == a + "-" + b[|a| + 1..] && s == b[|a| + 1..] + "-" + t
  }

  // For example, node "a" with target "b-c" and node "a-b" with target "c".
  lemma {:induction false} JoinCollisionExample()
    ensures NewName("a", "b-c") == NewName("a-b", "c")
  {
  }

  // Kinds never collide, and kube leaves collide exactly where identities do: once the identity
  // loops have accepted, only fetched files can be refused.
  lemma {:induction false} LeafCollisions(x: Item, y: Item)
    ensures x.kind != y.kind ==> Leaf(x) != Leaf(y)
    ensures x.kind == y.kind ==> (Leaf(x) == Leaf(y) <==> Identity(x) == Identity(y))
  {
    if x.kind != y.kind {
      assert Leaf(x)[0] != Leaf(y)[0];
    } else {
      var u, v := "-" + x.node + "-" + x.name, "-" + y.node + "-" + y.name;
      var p := Prefix(x.kind);
      assert Leaf(x) == p + u && Leaf(y) == p + v;
      assert Identity(x) == "tunstrap" + u && Identity(y) == "tunstrap" + v;
      assert (p + u)[|p|..] == u && (p + v)[|p|..] == v;
      assert ("tunstrap" + u)[8..] == u && ("tunstrap" + v)[8..] == v;
    }
  }

  // ------------------------------------------------------------ names on disk

  predicate Letter(c: char) { 'a' <= c <= 'z' || 'A' <= c <= 'Z' }

  predicate NameChar(c: char) { Letter(c) || '0' <= c <= '9' || c == '_' || c == '-' }

  predicate Plain(s: string) {
    s != [] && (Letter(s[0]) || s[0] == '_') && forall i :: 0 <= i < |s| ==> NameChar(s[i])
  }

  // _validate_identifier_key. The pattern ends in `$`, which also matches before one final
  // newline, so a key may end in one.
  predicate ValidKey(s: string) {
    |s| <= 64 && (Plain(s) || (s != [] && s[|s| - 1] == '\n' && Plain(s[..|s| - 1])))
  }

  // The keys that are accepted: at most 64 characters, a letter or an underscore first, then letters,
  // digits, underscores and dashes, and at most one newline, at the end.
  lemma {:induction false} AcceptedKeys(s: string)
    ensures ValidKey(s) <==> |s| <= 64 && (Identifier(s) || exists t :: s == t + "\n" && Identifier(t))
    ensures ValidKey(s) ==> s != [] && (Identifier(s) <==> s[|s| - 1] != '\n') && (Identifier(s) <==> '\n' !in s)
  {
    if s != [] && Plain(s[..|s| - 1]) && s[|s| - 1] == '\n' {
      var t := s[..|s| - 1];
      assert s == t + "\n" && Identifier(t);
    }
    if t :| s == t + "\n" && Identifier(t) { assert s[..|s| - 1] == t && Plain(t); }
    if ValidKey(s) { NewlineLast(s); }
  }

  lemma {:induction false} NewlineLast(s: string)
    requires ValidKey(s)
    ensures Identifier(s) <==> s[|s| - 1] != '\n'
    ensures Identifier(s) <==> '\n' !in s
  {
    if Plain(s) {
      assert NameChar(s[|s| - 1]);
    } else {
      var front := s[..|s| - 1];
      assert s == front + [s[|s| - 1]];
    }
  }

  // A letter or an underscore, then letters, digits, underscores and dashes.
  predicate Identifier(s: string) {
    && s != [] && !('0' <= s[0] <= '9') && s[0] != '-'
    && forall i :: 0 <= i < |s| ==>
         'a' <= s[i] <= 'z' || 'A' <= s[i] <= 'Z' || '0' <= s[i] <= '9' || s[i] == '_' || s[i] == '-'
  }

  // Such a key.
  lemma {:induction false} NewlineKey()
    ensures ValidKey("a\n") && !Identifier("a\n")
  {
    assert "a\n"[..1] == "a" && !NameChar("a\n"[1]);
  }

  // The name checks of _validated_path.
  predicate SafeName(s: string) { '/' !in s && '\\' !in s && s != "." && s != ".." }

  // The daemon's own files, and the temp names of atomic_write.
  predicate OwnName(s: string) {
    s in {"daemon.pid", "output.json", "tunnel-loss.json"} || (s != [] && s[0] == '.')
  }

  // Every leaf built from accepted keys passes the name checks and is none of the daemon's own.
  lemma {:induction false} LeavesAreSafe(i: Item)
    requires ValidKey(i.node) && ValidKey(i.name)
    ensures SafeName(Leaf(i)) && !OwnName(Leaf(i))
    ensures '/' !in Leaf(i) && '\\' !in Leaf(i) && Leaf(i) !in {"", ".", ".."} && Leaf(i)[0] != '.'
    ensures Leaf(i) !in {"daemon.pid", "output.json", "tunnel-loss.json"}
  {
    var leaf := Leaf(i);
    KeyChars(i.node);
    KeyChars(i.name);
    forall c | c in leaf ensures NameChar(c) || c == '\n' {
      assert c in Prefix(i.kind) || c == '-' || c in i.node || c in i.name;
    }
    assert leaf[0] == 'k' || leaf[0] == 'f';
  }

  lemma {:induction false} KeyChars(s: string)
    requires ValidKey(s)
    ensures forall c :: c in s ==> NameChar(c) || c == '\n'
  {
    if !Plain(s) {
      var front := s[..|s| - 1];
      assert s == front + [s[|s| - 1]];
    }
  }
}
