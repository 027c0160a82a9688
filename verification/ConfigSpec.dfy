/** Configuration trees: which nodes are listed under which dotted name, and what a variable and its
    listeners see of a sequence of updates. */
module ConfigSpec {
  import opened Common

  // ---------------------------------------------------------------- names

  const NAME_CHARS: string := "abcdefghikjlm" + "nopqrstuvwxyz" + "._" + "012345678"

  /** `find_first_not_of` finds nothing. */
  predicate ValidName(s: string) {
    forall n :: 0 <= n < |s| ==> s[n] in NAME_CHARS
  }

  /** The names that the documentation of `ConfigVar` calls valid. */
  predicate DocumentedName(s: string) {
    forall n :: 0 <= n < |s| ==> '0' <= s[n] <= '9' || 'a' <= s[n] <= 'z' || s[n] == '_' || s[n] == '.'
  }

  lemma NameChar(c: char)
    ensures c in NAME_CHARS <==> '0' <= c <= '8' || 'a' <= c <= 'z' || c == '_' || c == '.'
  {
    assert c in "abcdefghikjlm" <==> 'a' <= c <= 'm';
    assert c in "nopqrstuvwxyz" <==> 'n' <= c <= 'z';
    assert c in "._" <==> c == '_' || c == '.';
    assert c in "012345678" <==> '0' <= c <= '8';
  }

  /** The digit 9 is documented and refused; nothing else differs. */
  lemma NineIsRefused(s: string)
    ensures ValidName(s) <==> DocumentedName(s) && '9' !in s
  {
    forall n | 0 <= n < |s|
      ensures s[n] in NAME_CHARS <==> '0' <= s[n] <= '8' || 'a' <= s[n] <= 'z' || s[n] == '_' || s[n] == '.'
    {
      NameChar(s[n]);
    }
    assert forall n :: 0 <= n < |s| && s[n] == '9' ==> s[n] !in NAME_CHARS;
  }

  /** `tolower` in the C locale. */
  function ToLower(s: string): (r: string)
    ensures |r| == |s|
  {
    if s == "" then ""
    else [if 'A' <= s[0] <= 'Z' then s[0] - 'A' + 'a' else s[0]] + ToLower(s[1..])
  }

  /** A listed name is in lower case already. */
  lemma {:induction false} ValidIsLower(s: string)
    requires ValidName(s)
    ensures ToLower(s) == s
  {
    if s != "" {
      NameChar(s[0]);
      assert forall n :: 0 <= n < |s[1..]| ==> s[1..][n] == s[n + 1];
      ValidIsLower(s[1..]);
    }
  }

  // ---------------------------------------------------------------- trees

  /** `Other` is a sequence or null. A map keeps the order of its entries. */
  datatype Node = Scalar(text: string) | Map(entries: seq<(string, Node)>) | Other(text: string)

  function Join(prefix: string, key: string): string {
    if prefix == "" then key else prefix + "." + key
  }

  /** What `ListAllMember` appends to its output. */
  function Members(prefix: string, node: Node): seq<(string, Node)>
    decreases node, 1
  {
    if !ValidName(prefix) then []
    else [(prefix, node)] + (if node.Map? then MembersOf(prefix, node, 0) else [])
  }

  /** The same for the entries of a map from number `n` on. */
  function MembersOf(prefix: string, node: Node, n: nat): seq<(string, Node)>
    requires node.Map? && n <= |node.entries|
    decreases node, 0, |node.entries| - n
  {
    if n == |node.entries| then []
    else Members(Join(prefix, node.entries[n].0), node.entries[n].1) + MembersOf(prefix, node, n + 1)
  }

  lemma MembersFrom(prefix: string, node: Node, n: nat)
    requires node.Map? && n < |node.entries|
    ensures MembersOf(prefix, node, n)
         == Members(Join(prefix, node.entries[n].0), node.entries[n].1) + MembersOf(prefix, node, n + 1)
  {}

  lemma MembersEnd(prefix: string, node: Node)
    requires node.Map?
    ensures MembersOf(prefix, node, |node.entries|) == []
  {}

  /** A node of a tree, by the entry numbers that lead to it. */
  type Path = seq<nat>

  predicate Leads(node: Node, path: Path)
    decreases |path|
  {
    path == [] || (node.Map? && path[0] < |node.entries| && Leads(node.entries[path[0]].1, path[1..]))
  }

  function NodeAt(node: Node, path: Path): Node
    requires Leads(node, path)
    decreases |path|
  {
    if path == [] then node else NodeAt(node.entries[path[0]].1, path[1..])
  }

  /** The dotted name of a node. */
  function NameAt(prefix: string, node: Node, path: Path): string
    requires Leads(node, path)
    decreases |path|
  {
    if path == [] then prefix
    else NameAt(Join(prefix, node.entries[path[0]].0), node.entries[path[0]].1, path[1..])
  }

  /** Every node on the way has a valid name. */
  predicate Reachable(prefix: string, node: Node, path: Path)
    requires Leads(node, path)
    decreases |path|
  {
    && ValidName(prefix)
    && (path != [] ==> Reachable(Join(prefix, node.entries[path[0]].0), node.entries[path[0]].1, path[1..]))
  }

  /** `Reachable`, spelled out. */
  lemma {:induction false} ReachableMeans(prefix: string, node: Node, path: Path)
    requires Leads(node, path)
    ensures forall k :: 0 <= k <= |path| ==> Leads(node, path[..k])
    ensures Reachable(prefix, node, path) <==> forall k :: 0 <= k <= |path| ==> ValidName(NameAt(prefix, node, path[..k]))
    decreases |path|
  {
    forall k | 0 <= k <= |path| ensures Leads(node, path[..k]) {
      ShortLeads(node, path, k);
    }
    assert path[..0] == [];
    if path != [] {
      var prefix', node', path' := Join(prefix, node.entries[path[0]].0), node.entries[path[0]].1, path[1..];
      ReachableMeans(prefix', node', path');
      forall k | 1 <= k <= |path| ensures NameAt(prefix, node, path[..k]) == NameAt(prefix', node', path'[..k - 1]) {
        assert path[..k][1..] == path'[..k - 1];
      }
      if Reachable(prefix, node, path) {
        forall k | 0 <= k <= |path| ensures ValidName(NameAt(prefix, node, path[..k])) {}
      } else if ValidName(prefix) {
        var k :| 0 <= k <= |path'| && !ValidName(NameAt(prefix', node', path'[..k]));
        assert !ValidName(NameAt(prefix, node, path[..k + 1]));
      } else {
        assert !ValidName(NameAt(prefix, node, path[..0]));
      }
    }
  }

  lemma {:induction false} ShortLeads(node: Node, path: Path, k: nat)
    requires Leads(node, path) && k <= |path|
    ensures Leads(node, path[..k])
    decreases |path|
  {
    if k > 0 {
      ShortLeads(node.entries[path[0]].1, path[1..], k - 1);
      assert path[..k][1..] == path[1..][..k - 1];
    }
  }

  /** Parents before children, siblings in the order of the map. */
  predicate Before(a: Path, b: Path)
    decreases |a|
  {
    b != [] && (a == [] || a[0] < b[0] || (a[0] == b[0] && Before(a[1..], b[1..])))
  }

  function Under(n: nat, ps: seq<Path>): (r: seq<Path>)
    ensures |r| == |ps| && forall k :: 0 <= k < |ps| ==> r[k] == [n] + ps[k]
  {
    seq(|ps|, k requires 0 <= k < |ps| => [n] + ps[k])
  }

  ghost function Paths(prefix: string, node: Node): seq<Path>
    decreases node, 1
  {
    if !ValidName(prefix) then []
    else [[]] + (if node.Map? then PathsOf(prefix, node, 0) else [])
  }

  ghost function PathsOf(prefix: string, node: Node, n: nat): seq<Path>
    requires node.Map? && n <= |node.entries|
    decreases node, 0, |node.entries| - n
  {
    if n == |node.entries| then []
    else Under(n, Paths(Join(prefix, node.entries[n].0), node.entries[n].1)) + PathsOf(prefix, node, n + 1)
  }

  /** `ms` is what stands at the paths `ps`, which are in order, all reachable, and all of those that
      start with an entry from `n` on. */
  ghost predicate Lists(prefix: string, node: Node, ps: seq<Path>, ms: seq<(string, Node)>) {
    && |ms| == |ps|
    && (forall k :: 0 <= k < |ps| ==>
          Leads(node, ps[k]) && Reachable(prefix, node, ps[k])
          && ms[k] == (NameAt(prefix, node, ps[k]), NodeAt(node, ps[k])))
    && (forall j, k :: 0 <= j < k < |ps| ==> Before(ps[j], ps[k]))
  }

  lemma {:induction false} PathsList(prefix: string, node: Node)
    ensures Lists(prefix, node, Paths(prefix, node), Members(prefix, node))
    decreases node, 1
  {
    if ValidName(prefix) {
      assert Lists(prefix, node, [[]], [(prefix, node)]);
      if node.Map? {
        PathsOfList(prefix, node, 0);
        hide Lists;
        ListsConcat(prefix, node, [[]], [(prefix, node)], PathsOf(prefix, node, 0), MembersOf(prefix, node, 0));
      }
    }
  }

  lemma {:induction false} PathsOfList(prefix: string, node: Node, n: nat)
    requires ValidName(prefix) && node.Map? && n <= |node.entries|
    ensures Lists(prefix, node, PathsOf(prefix, node, n), MembersOf(prefix, node, n)) && From(PathsOf(prefix, node, n), n)
    decreases node, 0, |node.entries| - n
  {
    if n < |node.entries| {
      var prefix', node' := Join(prefix, node.entries[n].0), node.entries[n].1;
      PathsList(prefix', node');
      PathsOfList(prefix, node, n + 1);
      UnderLists(prefix, node, n, Paths(prefix', node'), Members(prefix', node'));
      var ps := Under(n, Paths(prefix', node'));
      hide Lists, Under, Paths, Members;
      assert forall k :: 0 <= k < |ps| ==> ps[k] != [] && ps[k][0] == n;
      ListsConcat(prefix, node, ps, Members(prefix', node'), PathsOf(prefix, node, n + 1), MembersOf(prefix, node, n + 1));
    }
  }

  ghost predicate From(ps: seq<Path>, n: nat) {
    forall k :: 0 <= k < |ps| ==> ps[k] != [] && ps[k][0] >= n
  }

  lemma UnderLists(prefix: string, node: Node, n: nat, ps: seq<Path>, ms: seq<(string, Node)>)
    requires ValidName(prefix) && node.Map? && n < |node.entries|
    requires Lists(Join(prefix, node.entries[n].0), node.entries[n].1, ps, ms)
    ensures Lists(prefix, node, Under(n, ps), ms)
    ensures forall k :: 0 <= k < |Under(n, ps)| ==> Under(n, ps)[k] != [] && Under(n, ps)[k][0] == n
  {
    forall k | 0 <= k < |ps| ensures Under(n, ps)[k][1..] == ps[k] {}
  }

  lemma ListsConcat(prefix: string, node: Node, ps: seq<Path>, ms: seq<(string, Node)>, qs: seq<Path>, ns: seq<(string, Node)>)
    requires Lists(prefix, node, ps, ms) && Lists(prefix, node, qs, ns)
    requires forall j, k :: 0 <= j < |ps| && 0 <= k < |qs| ==> Before(ps[j], qs[k])
    ensures Lists(prefix, node, ps + qs, ms + ns)
  {
    hide Leads, Reachable, NameAt, NodeAt, Before;
  }

  /** Every reachable path is in the list. */
  lemma {:induction false} PathsComplete(prefix: string, node: Node, path: Path)
    requires Leads(node, path) && Reachable(prefix, node, path)
    ensures path in Paths(prefix, node)
    decreases |path|
  {
    if path != [] {
      var n := path[0];
      var ps := Paths(Join(prefix, node.entries[n].0), node.entries[n].1);
      PathsComplete(Join(prefix, node.entries[n].0), node.entries[n].1, path[1..]);
      var k :| 0 <= k < |ps| && ps[k] == path[1..];
      assert Under(n, ps)[k] == path;
      UnderIsPart(prefix, node, 0, n, path);
    } else {
      assert Paths(prefix, node)[0] == [];
    }
  }

  lemma {:induction false} UnderIsPart(prefix: string, node: Node, m: nat, n: nat, path: Path)
    requires node.Map? && m <= n < |node.entries|
    requires path in Under(n, Paths(Join(prefix, node.entries[n].0), node.entries[n].1))
    ensures path in PathsOf(prefix, node, m)
    decreases n - m
  {
    hide Paths, Under;
    if m < n {
      UnderIsPart(prefix, node, m + 1, n, path);
    }
  }

  /** The list is, in pre-order and each once, exactly the nodes all of whose names on the way are valid. */
  lemma MembersExact(prefix: string, node: Node)
    ensures Lists(prefix, node, Paths(prefix, node), Members(prefix, node))
    ensures forall path :: path in Paths(prefix, node) <==> Leads(node, path) && Reachable(prefix, node, path)
  {
    PathsList(prefix, node);
    forall path | Leads(node, path) && Reachable(prefix, node, path) ensures path in Paths(prefix, node) {
      PathsComplete(prefix, node, path);
    }
  }

  /** Every listed name is valid, so lower-casing it changes nothing. */
  lemma ListedNames(prefix: string, node: Node)
    ensures forall k :: 0 <= k < |Members(prefix, node)| ==>
              ValidName(Members(prefix, node)[k].0) && ToLower(Members(prefix, node)[k].0) == Members(prefix, node)[k].0
  {
    var ms, ps := Members(prefix, node), Paths(prefix, node);
    PathsList(prefix, node);
    forall k | 0 <= k < |ms| ensures ValidName(ms[k].0) && ToLower(ms[k].0) == ms[k].0 {
      ReachableMeans(prefix, node, ps[k]);
      assert ps[k][..|ps[k]|] == ps[k];
      ValidIsLower(ms[k].0);
    }
  }

  // ---------------------------------------------------------------- one variable

  /** A call of listener `id` with the old and the new value. */
  datatype Notice<T> = Notice(id: nat, was: T, now: T)

  /** A variable: its value, the keys of its listeners in ascending order, and the calls made so far. */
  datatype Var<T> = Var(val: T, cbs: seq<nat>, log: seq<Notice<T>>)

  function Notices<T>(ids: seq<nat>, was: T, now: T): (r: seq<Notice<T>>)
    ensures |r| == |ids| && forall k :: 0 <= k < |ids| ==> r[k] == Notice(ids[k], was, now)
  {
    seq(|ids|, k requires 0 <= k < |ids| => Notice(ids[k], was, now))
  }

  function Set<T(==)>(v: Var<T>, x: T): Var<T> {
    if x == v.val then v else Var(x, v.cbs, v.log + Notices(v.cbs, v.val, x))
  }

  function SetAll<T(==)>(v: Var<T>, xs: seq<T>): Var<T>
    decreases |xs|
  {
    if xs == [] then v else SetAll(Set(v, xs[0]), xs[1..])
  }

  lemma {:induction false} SetAllAppend<T>(v: Var<T>, xs: seq<T>, x: T)
    ensures SetAll(v, xs + [x]) == Set(SetAll(v, xs), x)
    decreases |xs|
  {
    if xs == [] {
      assert (xs + [x])[1..] == [];
    } else {
      assert (xs + [x])[1..] == xs[1..] + [x];
      SetAllAppend(Set(v, xs[0]), xs[1..], x);
    }
  }

  function Without(ids: seq<nat>, id: nat): (r: seq<nat>)
    ensures id !in r && forall k :: k in r ==> k in ids
    ensures forall k :: k in ids && k != id ==> k in r
  {
    if ids == [] then [] else (if ids[0] == id then [] else [ids[0]]) + Without(ids[1..], id)
  }

  /** Ascending, so each key once. */
  predicate Ascending(ids: seq<nat>) {
    forall j, k :: 0 <= j < k < |ids| ==> ids[j] < ids[k]
  }

  lemma {:induction false} WithoutAscends(ids: seq<nat>, id: nat)
    requires Ascending(ids)
    ensures Ascending(Without(ids, id))
  {
    if ids != [] {
      WithoutAscends(ids[1..], id);
      var rest := Without(ids[1..], id);
      forall k | 0 <= k < |rest| ensures rest[k] > ids[0] {
        assert rest[k] in rest;
        var j :| 0 <= j < |ids[1..]| && ids[1..][j] == rest[k];
        assert ids[1..][j] == ids[j + 1];
      }
    }
  }

  datatype Update<T> = SetValue(x: T) | AddListener(id: nat) | DelListener(id: nat) | ClearListener

  function Apply<T(==)>(v: Var<T>, u: Update<T>): Var<T> {
    match u
    case SetValue(x) => Set(v, x)
    case AddListener(id) => v.(cbs := v.cbs + [id])
    case DelListener(id) => v.(cbs := Without(v.cbs, id))
    case ClearListener => v.(cbs := [])
  }

  function ApplyAll<T(==)>(v: Var<T>, us: seq<Update<T>>): Var<T>
    decreases |us|
  {
    if us == [] then v else ApplyAll(Apply(v, us[0]), us[1..])
  }

  /** A listener's own calls. */
  function Seen<T>(log: seq<Notice<T>>, id: nat): seq<Notice<T>> {
    if log == [] then []
    else if log[0].id == id then [log[0]] + Seen(log[1..], id)
    else Seen(log[1..], id)
  }

  lemma {:induction false} SeenConcat<T>(a: seq<Notice<T>>, b: seq<Notice<T>>, id: nat)
    ensures Seen(a + b, id) == Seen(a, id) + Seen(b, id)
  {
    if a == [] {
      assert a + b == b;
    } else {
      assert (a + b)[0] == a[0] && (a + b)[1..] == a[1..] + b;
      SeenConcat(a[1..], b, id);
    }
  }

  lemma {:induction false} SeenOnce<T>(ids: seq<nat>, was: T, now: T, id: nat)
    requires Ascending(ids)
    ensures Seen(Notices(ids, was, now), id) == if id in ids then [Notice(id, was, now)] else []
  {
    if ids != [] {
      assert Notices(ids, was, now)[1..] == Notices(ids[1..], was, now);
      SeenOnce(ids[1..], was, now, id);
    }
  }

  /** The calls lead from `a` to `b`, each a change, each starting where the last one ended. */
  predicate Chain<T(==)>(a: T, calls: seq<Notice<T>>, b: T)
    decreases |calls|
  {
    if calls == [] then a == b
    else calls[0].was == a && calls[0].now != a && Chain(calls[0].now, calls[1..], b)
  }

  /** Keys of new listeners are new, as the counter makes them. */
  predicate FreshKeys<T>(us: seq<Update<T>>, last: nat)
    decreases |us|
  {
    us == [] || (if us[0].AddListener? then us[0].id > last && FreshKeys(us[1..], us[0].id) else FreshKeys(us[1..], last))
  }

  predicate Stays<T>(us: seq<Update<T>>, id: nat) {
    forall k :: 0 <= k < |us| ==> us[k] != ClearListener && us[k] != DelListener(id)
  }

  /** One `setValue` before the calls `rest`. */
  lemma SetExtends<T>(v: Var<T>, x: T, id: nat, rest: seq<Notice<T>>, end: T) returns (calls: seq<Notice<T>>)
    requires Ascending(v.cbs)
    ensures Seen(Set(v, x).log, id) + rest == Seen(v.log, id) + calls
    ensures id in v.cbs && Chain(x, rest, end) ==> Chain(v.val, calls, end)
    ensures id !in v.cbs ==> calls == rest
  {
    calls := rest;
    if x != v.val {
      SeenConcat(v.log, Notices(v.cbs, v.val, x), id);
      SeenOnce(v.cbs, v.val, x, id);
      hide Seen;
      if id in v.cbs {
        calls := [Notice(id, v.val, x)] + rest;
        assert calls[1..] == rest;
        assert Seen(v.log, id) + [Notice(id, v.val, x)] + rest == Seen(v.log, id) + calls;
      }
    }
  }

  /** A listener present throughout sees a chain of changes from the value before to the value after;
      one that is absent throughout sees nothing. */
  lemma {:induction false} ListenersSeeChains<T>(v: Var<T>, us: seq<Update<T>>, id: nat, last: nat) returns (calls: seq<Notice<T>>)
    requires Ascending(v.cbs) && (forall k :: k in v.cbs ==> k <= last) && FreshKeys(us, last)
    requires id <= last && Stays(us, id)
    ensures Seen(ApplyAll(v, us).log, id) == Seen(v.log, id) + calls
    ensures id in v.cbs ==> Chain(v.val, calls, ApplyAll(v, us).val)
    ensures id !in v.cbs ==> calls == []
    decreases |us|
  {
    if us == [] {
      calls := [];
    } else {
      var v' := Apply(v, us[0]);
      assert forall k :: 0 <= k < |us[1..]| ==> us[1..][k] == us[k + 1];
      match us[0] {
        case SetValue(x) =>
          var rest := ListenersSeeChains(v', us[1..], id, last);
          calls := SetExtends(v, x, id, rest, ApplyAll(v, us).val);
        case AddListener(n) =>
          assert forall j :: 0 <= j < |v.cbs| ==> v.cbs[j] in v.cbs;
          calls := ListenersSeeChains(v', us[1..], id, n);
        case DelListener(n) =>
          WithoutAscends(v.cbs, n);
          calls := ListenersSeeChains(v', us[1..], id, last);
        case ClearListener =>
          calls := [];
      }
    }
  }

  /** The first half of `setValue`, under the read lock; the assignment follows under the write lock. */
  function Notify<T(==)>(v: Var<T>, x: T): Var<T> {
    if x == v.val then v else v.(log := v.log + Notices(v.cbs, v.val, x))
  }

  /** The locks do not join the halves: two updates whose first halves come first leave every listener
      with calls that are no chain, to whichever of the two values. */
  lemma RacingUpdatesBreakTheChain<T>(v: Var<T>, x: T, y: T, id: nat, end: T)
    requires Ascending(v.cbs) && id in v.cbs && x != v.val && y != v.val
    ensures var calls := [Notice(id, v.val, x), Notice(id, v.val, y)];
            Seen(Notify(Notify(v, x), y).log, id) == Seen(v.log, id) + calls && !Chain(v.val, calls, end)
  {
    SeenConcat(v.log, Notices(v.cbs, v.val, x), id);
    SeenConcat(v.log + Notices(v.cbs, v.val, x), Notices(v.cbs, v.val, y), id);
    SeenOnce(v.cbs, v.val, x, id);
    SeenOnce(v.cbs, v.val, y, id);
    hide Seen;
    var calls := [Notice(id, v.val, x), Notice(id, v.val, y)];
    assert calls[1..][0] == Notice(id, v.val, y);
    assert Seen(v.log, id) + [Notice(id, v.val, x)] + [Notice(id, v.val, y)] == Seen(v.log, id) + calls;
  }

  // ---------------------------------------------------------------- loading

  /** The text of a node: a scalar's own, or what yaml-cpp writes for it. */
  function TextOf(node: Node, dump: Node -> string): string {
    if node.Scalar? then node.text else dump(node)
  }

  /** The values that the listed nodes offer the variable `name`, in order. */
  function Offers<T>(ms: seq<(string, Node)>, name: string, parse: string -> Option<T>, dump: Node -> string): seq<T> {
    if ms == [] then []
    else
      var m := ms[|ms| - 1];
      var before := Offers(ms[..|ms| - 1], name, parse, dump);
      if m.0 == name && name != "" && parse(TextOf(m.1, dump)).Some? then before + [parse(TextOf(m.1, dump)).value]
      else before
  }

  /** What one node does to the variable `name`. */
  function Offered<T(==)>(v: Var<T>, m: (string, Node), name: string, parse: string -> Option<T>, dump: Node -> string): Var<T> {
    if m.0 == name && name != "" && parse(TextOf(m.1, dump)).Some? then Set(v, parse(TextOf(m.1, dump)).value) else v
  }

  lemma OneMoreOffer<T>(v: Var<T>, ms: seq<(string, Node)>, i: nat, name: string, parse: string -> Option<T>, dump: Node -> string)
    requires i < |ms|
    ensures SetAll(v, Offers(ms[..i + 1], name, parse, dump))
         == Offered(SetAll(v, Offers(ms[..i], name, parse, dump)), ms[i], name, parse, dump)
  {
    assert ms[..i + 1][..i] == ms[..i];
    var text := TextOf(ms[i].1, dump);
    if ms[i].0 == name && name != "" && parse(text).Some? {
      SetAllAppend(v, Offers(ms[..i], name, parse, dump), parse(text).value);
    }
  }

  /** Node `k` is the last one with the name that converts. */
  predicate LastWriter<T>(ms: seq<(string, Node)>, name: string, parse: string -> Option<T>, dump: Node -> string, k: nat) {
    && k < |ms| && ms[k].0 == name && name != "" && parse(TextOf(ms[k].1, dump)).Some?
    && forall j :: k < j < |ms| && ms[j].0 == name ==> parse(TextOf(ms[j].1, dump)).None?
  }

  /** The value after loading is the last writer's, or the old one if nothing converts. */
  lemma {:induction false} LoadedValue<T>(v: Var<T>, ms: seq<(string, Node)>, name: string, parse: string -> Option<T>, dump: Node -> string)
    ensures var after := SetAll(v, Offers(ms, name, parse, dump));
            && after.cbs == v.cbs
            && (forall k: nat :: LastWriter(ms, name, parse, dump, k) ==> Some(after.val) == parse(TextOf(ms[k].1, dump)))
            && ((forall k: nat :: !LastWriter(ms, name, parse, dump, k)) ==> after == v)
    decreases |ms|
  {
    if ms != [] {
      var last := |ms| - 1;
      var short := ms[..last];
      LoadedValue(v, short, name, parse, dump);
      if ms[last].0 == name && name != "" && parse(TextOf(ms[last].1, dump)).Some? {
        SetAllAppend(v, Offers(short, name, parse, dump), parse(TextOf(ms[last].1, dump)).value);
        assert LastWriter(ms, name, parse, dump, last);
        forall k: nat | LastWriter(ms, name, parse, dump, k) ensures k == last {}
      } else {
        forall k: nat ensures LastWriter(ms, name, parse, dump, k) <==> LastWriter(short, name, parse, dump, k) {
          if LastWriter(short, name, parse, dump, k) {
            assert forall j :: k < j < |short| ==> short[j] == ms[j];
          }
        }
      }
    }
  }
}
