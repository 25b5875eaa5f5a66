/**
 * The hook through which marking-agreement methods announce themselves: a map from each
 * method's class name to its display name.
 */
module MarkingAgreement {

  class NameRegistry {
    /** Display names keyed by class name. */
    var names: map<string, string>

    /** A new hook has no names. */
    constructor ()
      ensures names == map[]
    {
      names := map[];
    }

    /** add: the class's entry now holds `name`; every other entry is kept. */
    method Add(name: string, cls: string)
      modifies this
      ensures names == old(names)[cls := name]
      ensures names.Keys == old(names).Keys + {cls}
      ensures |names| == |old(names)| + (if cls in old(names) then 0 else 1)
    {
      names := names[cls := name];
    }
  }

  /** Two methods registered under different classes are both listed. */
  method TwoMethodsListed(a: string, b: string, clsA: string, clsB: string) returns (listed: map<string, string>)
    requires clsA != clsB
    ensures listed == map[clsA := a, clsB := b]
    ensures |listed| == 2
  {
    var hook := new NameRegistry();
    hook.Add(a, clsA);
    hook.Add(b, clsB);
    listed := hook.names;
  }

  /** Registering a class twice keeps one entry holding the later name. */
  method SameClassTwiceKeepsLater(first: string, later: string, cls: string) returns (listed: map<string, string>)
    ensures listed == map[cls := later]
    ensures |listed| == 1
  {
    var hook := new NameRegistry();
    hook.Add(first, cls);
    hook.Add(later, cls);
    listed := hook.names;
  }
}
