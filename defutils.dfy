/**
 * `config_obj`: assigns each keyword argument to the attribute of the same
 * name on a target object, in place, and returns nothing.
 *
 * The target's attributes are a map from attribute name to value; the
 * keyword arguments are the sequence of (name, value) pairs in the order
 * they were passed.
 */
module DefUtils {

  /** An object, seen as its attributes by name. */
  class Target<V> {
    var attrs: map<string, V>

    constructor (attrs: map<string, V>)
      ensures this.attrs == attrs
    {
      this.attrs := attrs;
    }
  }

  /** The attribute names the keyword arguments mention. */
  function Names<V>(kwargs: seq<(string, V)>): set<string>
  {
    set i | 0 <= i < |kwargs| :: kwargs[i].0
  }

  /** Keyword argument names never repeat in a call. */
  predicate DistinctNames<V>(kwargs: seq<(string, V)>)
  {
    forall i, j :: 0 <= i < j < |kwargs| ==> kwargs[i].0 != kwargs[j].0
  }

  /** The names of a non-empty argument list: those before the last pair, and the last one. */
  lemma NamesOfLast<V>(kwargs: seq<(string, V)>)
    requires kwargs != []
    ensures Names(kwargs) == Names(kwargs[..|kwargs| - 1]) + {kwargs[|kwargs| - 1].0}
  {
    var init := kwargs[..|kwargs| - 1];
    forall n | n in Names(kwargs) ensures n in Names(init) + {kwargs[|kwargs| - 1].0} {
      var i :| 0 <= i < |kwargs| && kwargs[i].0 == n;
      if i < |kwargs| - 1 {
        assert init[i] == kwargs[i];
      }
    }
    forall n | n in Names(init) ensures n in Names(kwargs) {
      var i :| 0 <= i < |init| && init[i].0 == n;
      assert kwargs[i] == init[i];
    }
  }

  /** The attributes after assigning the pairs of `kwargs` one by one, in order. */
  function Assigned<V>(attrs: map<string, V>, kwargs: seq<(string, V)>): map<string, V>
    decreases |kwargs|
  {
    if kwargs == [] then attrs
    else
      var last := kwargs[|kwargs| - 1];
      Assigned(attrs, kwargs[..|kwargs| - 1])[last.0 := last.1]
  }

  /** Assignment adds exactly the named attributes to those already there. */
  lemma {:induction false} AssignedKeys<V>(attrs: map<string, V>, kwargs: seq<(string, V)>)
    ensures Assigned(attrs, kwargs).Keys == attrs.Keys + Names(kwargs)
  {
    if kwargs != [] {
      var init := kwargs[..|kwargs| - 1];
      AssignedKeys(attrs, init);
      NamesOfLast(kwargs);
    }
  }

  /** Every named attribute ends up holding the value passed for it. */
  lemma {:induction false} AssignedNamed<V>(attrs: map<string, V>, kwargs: seq<(string, V)>, i: nat)
    requires DistinctNames(kwargs)
    requires i < |kwargs|
    ensures kwargs[i].0 in Assigned(attrs, kwargs)
    ensures Assigned(attrs, kwargs)[kwargs[i].0] == kwargs[i].1
  {
    var n := |kwargs| - 1;
    if i < n {
      var init := kwargs[..n];
      assert init[i] == kwargs[i];
      assert DistinctNames(init) by {
        forall a, b | 0 <= a < b < |init| ensures init[a].0 != init[b].0 {
          assert init[a] == kwargs[a] && init[b] == kwargs[b];
        }
      }
      AssignedNamed(attrs, init, i);
      assert kwargs[n].0 != kwargs[i].0;
    }
  }

  /** Attributes the keyword arguments do not name are left as they were. */
  lemma {:induction false} AssignedOthers<V>(attrs: map<string, V>, kwargs: seq<(string, V)>, k: string)
    requires k !in Names(kwargs)
    ensures k in Assigned(attrs, kwargs) <==> k in attrs
    ensures k in attrs ==> Assigned(attrs, kwargs)[k] == attrs[k]
  {
    if kwargs != [] {
      var init := kwargs[..|kwargs| - 1];
      assert k != kwargs[|kwargs| - 1].0;
      NamesOfLast(kwargs);
      AssignedOthers(attrs, init, k);
    }
  }

  /** With no keyword arguments the attributes are exactly as they were. */
  lemma AssignedNothing<V>(attrs: map<string, V>)
    ensures Assigned(attrs, []) == attrs
  {
  }

  /** Assigning the same keyword arguments twice is the same as assigning them once. */
  lemma AssignedTwice<V>(attrs: map<string, V>, kwargs: seq<(string, V)>)
    requires DistinctNames(kwargs)
    ensures Assigned(Assigned(attrs, kwargs), kwargs) == Assigned(attrs, kwargs)
  {
    var once := Assigned(attrs, kwargs);
    var twice := Assigned(once, kwargs);
    AssignedKeys(attrs, kwargs);
    AssignedKeys(once, kwargs);
    forall k | k in twice ensures twice[k] == once[k] {
      if k in Names(kwargs) {
        var i :| 0 <= i < |kwargs| && kwargs[i].0 == k;
        AssignedNamed(attrs, kwargs, i);
        AssignedNamed(once, kwargs, i);
      } else {
        AssignedOthers(once, kwargs, k);
      }
    }
  }

  /**
   * `config_obj(target, **kwargs)`: sets each named attribute on `target`
   * in turn. Afterwards every named attribute holds its value, every other
   * attribute is unchanged, and no attribute disappears.
   */
  method ConfigObj<V>(target: Target<V>, kwargs: seq<(string, V)>)
    requires DistinctNames(kwargs)
    modifies target
    ensures target.attrs == Assigned(old(target.attrs), kwargs)
    ensures target.attrs.Keys == old(target.attrs).Keys + Names(kwargs)
    ensures forall i :: 0 <= i < |kwargs| ==> target.attrs[kwargs[i].0] == kwargs[i].1
    ensures forall k :: k in old(target.attrs) && k !in Names(kwargs) ==> target.attrs[k] == old(target.attrs)[k]
  {
    for i := 0 to |kwargs|
      invariant target.attrs == Assigned(old(target.attrs), kwargs[..i])
    {
      assert kwargs[..i + 1][..i] == kwargs[..i];
      var (attr, value) := kwargs[i];
      target.attrs := target.attrs[attr := value];
    }
    assert kwargs[..|kwargs|] == kwargs;
    AssignedKeys(old(target.attrs), kwargs);
    forall i | 0 <= i < |kwargs| ensures target.attrs[kwargs[i].0] == kwargs[i].1 {
      AssignedNamed(old(target.attrs), kwargs, i);
    }
    forall k | k in old(target.attrs) && k !in Names(kwargs)
      ensures target.attrs[k] == old(target.attrs)[k]
    {
      AssignedOthers(old(target.attrs), kwargs, k);
    }
  }
}
