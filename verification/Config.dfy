/** Configuration variables with their listeners, and loading them from a tree. */
module Config {
  import opened Common
  import opened ConfigSpec

  /** The function-local static counter of `addListener`; all variables of one type share it. */
  class FunIds {
    var last: nat

    constructor ()
      ensures last == 0
    {
      last := 0;
    }
  }

  class ConfigVar<T(==)> {
    const name: string
    const parse: string -> Option<T>
    const ids: FunIds
    var val: T
    var cbs: seq<nat>
    /** The listener calls so far; the listeners themselves are not part of the model. */
    var log: seq<Notice<T>>

    /** The listener keys are those of an ordered map, all drawn from the counter. */
    ghost predicate Valid()
      reads this, ids
    {
      Ascending(cbs) && forall k :: k in cbs ==> 0 < k <= ids.last
    }

    function State(): Var<T>
      reads this
    {
      Var(val, cbs, log)
    }

    constructor (name: string, defaultValue: T, parse: string -> Option<T>, ids: FunIds)
      ensures this.name == name && this.parse == parse && this.ids == ids
      ensures Valid() && State() == Var(defaultValue, [], [])
    {
      this.name, this.parse, this.ids := name, parse, ids;
      val, cbs, log := defaultValue, [], [];
    }

    /** Calls every listener, in the order of the keys, before the value changes; nothing happens when the
        value is the same. */
    method SetValue(v: T)
      modifies this
      ensures State() == Set(old(State()), v)
      ensures old(Valid()) ==> Valid()
    {
      if v == val {
        return;
      }
      ghost var before := log;
      for k := 0 to |cbs|
        invariant val == old(val) && cbs == old(cbs)
        invariant log == before + Notices(cbs, val, v)[..k]
      {
        log := log + [Notice(cbs[k], val, v)];
      }
      val := v;
    }

    /** Sets the converted value, or nothing when the conversion throws. The result is false either way. */
    method FromString(text: string) returns (ok: bool)
      modifies this
      ensures State() == if parse(text).Some? then Set(old(State()), parse(text).value) else old(State())
      ensures old(Valid()) ==> Valid()
      ensures !ok
    {
      match parse(text)
      case Some(v) =>
        SetValue(v);
        return false;
      case None =>
        return false;
    }

    /** The new key is larger than every key handed out before. */
    method AddListener() returns (id: nat)
      requires Valid()
      modifies this, ids
      ensures Valid()
      ensures id == ids.last == old(ids.last) + 1
      ensures State() == Apply(old(State()), ConfigSpec.Update<T>.AddListener(id))
    {
      ids.last := ids.last + 1;
      id := ids.last;
      assert forall j :: 0 <= j < |cbs| ==> cbs[j] in cbs;
      cbs := cbs + [id];
    }

    method DelListener(id: nat)
      requires Valid()
      modifies this
      ensures Valid()
      ensures State() == Apply(old(State()), ConfigSpec.Update<T>.DelListener(id))
    {
      WithoutAscends(cbs, id);
      cbs := Without(cbs, id);
    }

    method ClearListeners()
      modifies this
      ensures Valid()
      ensures State() == Apply(old(State()), ClearListener)
    {
      cbs := [];
    }
  }

  /** The registered variables, by name. */
  class Registry<T(==)> {
    var datas: map<string, ConfigVar<T>>

    ghost predicate Valid()
      reads this
    {
      forall m, n :: m in datas && n in datas && m != n ==> datas[m] != datas[n]
    }

    constructor ()
      ensures Valid() && datas == map[]
    {
      datas := map[];
    }

    /** Appends to `output` what is to be listed below `node`. */
    static method ListAllMember(prefix: string, node: Node, output: seq<(string, Node)>) returns (out: seq<(string, Node)>)
      ensures out == output + Members(prefix, node)
      decreases node
    {
      out := output;
      if !ValidName(prefix) {
        return;
      }
      out := out + [(prefix, node)];
      if node.Map? {
        ghost var all := output + Members(prefix, node);
        Regroup(output, [(prefix, node)], MembersOf(prefix, node, 0));
        hide Members, MembersOf, ValidName;
        for n := 0 to |node.entries|
          invariant out + MembersOf(prefix, node, n) == all
        {
          var name := if prefix == "" then node.entries[n].0 else prefix + "." + node.entries[n].0;
          MembersFrom(prefix, node, n);
          Regroup(out, Members(name, node.entries[n].1), MembersOf(prefix, node, n + 1));
          out := ListAllMember(name, node.entries[n].1, out);
        }
        MembersEnd(prefix, node);
      }
    }

    /** The turn of the loop for one listed node. */
    method LoadOne(m: (string, Node), dump: Node -> string)
      requires Valid() && ValidName(m.0) && ToLower(m.0) == m.0
      modifies datas.Values
      ensures forall n :: n in datas ==> datas[n].State() == Offered(old(datas[n].State()), m, n, datas[n].parse, dump)
    {
      hide Set;
      var key := m.0;
      if key == "" {
        return;
      }
      key := ToLower(key);
      if key in datas {
        var x := datas[key];
        assert forall n :: n in datas && n != key ==> datas[n] != x;
        var _ := x.FromString(if m.1.Scalar? then m.1.text else dump(m.1));
      }
    }

    /** Every registered variable is set, in the order of the list, to each value that the tree offers it. */
    method LoadFromYaml(root: Node, dump: Node -> string)
      requires Valid()
      modifies datas.Values
      ensures forall n :: n in datas ==>
                datas[n].State() == SetAll(old(datas[n].State()), Offers(Members("", root), n, datas[n].parse, dump))
    {
      hide ValidName, Members, Offered;
      var nodes := ListAllMember("", root, []);
      ListedNames("", root);
      assert nodes == Members("", root);
      assert nodes[..0] == [];
      for i := 0 to |nodes|
        invariant forall n :: n in datas ==>
                    datas[n].State() == SetAll(old(datas[n].State()), Offers(nodes[..i], n, datas[n].parse, dump))
      {
        LoadOne(nodes[i], dump);
        hide SetAll, Offers;
        forall n | n in datas
          ensures datas[n].State() == SetAll(old(datas[n].State()), Offers(nodes[..i + 1], n, datas[n].parse, dump))
        {
          OneMoreOffer(old(datas[n].State()), nodes, i, n, datas[n].parse, dump);
        }
      }
      assert nodes[..|nodes|] == nodes;
    }
  }
}
