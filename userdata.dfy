/**
 * The custom user data forwarded to the join call: the keys of the
 * configured object that start with `userdata-bbb` are copied, each under
 * its own name prefixed with `custom_`, onto the base join parameters.
 */
module UserData {
  import opened Values

  const ForwardPrefix: string := "userdata-bbb"
  const CustomPrefix: string := "custom_"

  /** `key.startsWith('userdata-bbb')`. */
  predicate Forwarded(key: string)
  {
    ForwardPrefix <= key
  }

  /** `` `custom_${ key }` ``. */
  function CustomKey(key: string): (r: string)
  {
    CustomPrefix + key
  }

  /** Parsed JSON objects never hold a key twice. */
  predicate DistinctKeys(props: Props)
  {
    forall i, j :: 0 <= i < |props| && 0 <= j < |props| && props[i].0 == props[j].0 ==> i == j
  }

  /** `Object.keys(obj).filter(key => key.startsWith('userdata-bbb'))`, keeping each key's value. */
  function SelectForwarded(props: Props): (r: Props)
    ensures forall p :: p in r <==> p in props && Forwarded(p.0)
    ensures DistinctKeys(props) ==> DistinctKeys(r)
  {
    if props == [] then []
    else
      var rest := SelectForwarded(props[1..]);
      if Forwarded(props[0].0) then
        assert DistinctKeys(props) ==> forall p :: p in rest ==> p.0 != props[0].0 by {
          if DistinctKeys(props) {
            forall p | p in rest ensures p.0 != props[0].0 {
              var m :| 0 <= m < |props[1..]| && props[1..][m] == p;
              assert props[m + 1] == p;
            }
          }
        }
        [props[0]] + rest
      else rest
  }

  /** The `custom_` keys that a list of properties contributes. */
  function CustomKeys(props: Props): (r: set<string>)
  {
    set p | p in props :: CustomKey(p.0)
  }

  /** The `reduce` step: `{ ...obj, [`custom_${ key }`]: value }` for each property in turn. */
  function Spread(props: Props, acc: map<string, Value>): (r: map<string, Value>)
    ensures acc.Keys <= r.Keys
  {
    if props == [] then acc
    else Spread(props[1..], acc[CustomKey(props[0].0) := props[0].1])
  }

  /** The join parameters: the base map with the forwarded user data spread over it. */
  function JoinParams(props: Props, base: map<string, Value>): (r: map<string, Value>)
  {
    Spread(SelectForwarded(props), base)
  }

  /** The `custom_` prefix is added injectively. */
  lemma {:induction false} CustomKeyInjective(k1: string, k2: string)
    requires CustomKey(k1) == CustomKey(k2)
    ensures k1 == k2
  {
    assert k1 == CustomKey(k1)[|CustomPrefix|..];
  }

  /** Dropping the first property keeps keys distinct, and its `custom_` key is not among the rest's. */
  lemma {:induction false} DistinctTail(props: Props)
    requires props != [] && DistinctKeys(props)
    ensures DistinctKeys(props[1..])
    ensures CustomKey(props[0].0) !in CustomKeys(props[1..])
  {
    var rest := props[1..];
    forall i, j | 0 <= i < |rest| && 0 <= j < |rest| && rest[i].0 == rest[j].0 ensures i == j {
      assert props[i + 1].0 == props[j + 1].0;
    }
    forall p | p in rest ensures CustomKey(p.0) != CustomKey(props[0].0) {
      var m :| 0 <= m < |rest| && rest[m] == p;
      assert props[m + 1] == p;
      if CustomKey(p.0) == CustomKey(props[0].0) {
        CustomKeyInjective(p.0, props[0].0);
      }
    }
  }

  /**
   * Spreading properties with distinct keys adds exactly their `custom_` keys,
   * each carrying its property's value, and leaves every other key as it was.
   */
  lemma {:induction false} SpreadSpec(props: Props, acc: map<string, Value>)
    requires DistinctKeys(props)
    ensures Spread(props, acc).Keys == acc.Keys + CustomKeys(props)
    ensures forall p :: p in props ==> Spread(props, acc)[CustomKey(p.0)] == p.1
    ensures forall k :: k in acc && k !in CustomKeys(props) ==> Spread(props, acc)[k] == acc[k]
  {
    if props != [] {
      var head := props[0];
      var rest := props[1..];
      var acc' := acc[CustomKey(head.0) := head.1];
      DistinctTail(props);
      SpreadSpec(rest, acc');
      assert Spread(props, acc) == Spread(rest, acc');
      assert CustomKeys(props) == {CustomKey(head.0)} + CustomKeys(rest) by {
        assert forall p :: p in props <==> p == head || p in rest;
      }
      forall p | p in props ensures Spread(props, acc)[CustomKey(p.0)] == p.1 {
        if p != head {
          assert p in rest;
        }
      }
    }
  }

  /**
   * The join parameter map: every base key keeps its value; the other keys are
   * exactly `custom_<k>` for each forwarded user-data key `k`, carrying `k`'s
   * value; a key without the `userdata-bbb` prefix never yields a `custom_` key.
   */
  lemma {:induction false} JoinParamsSpec(props: Props, base: map<string, Value>)
    requires DistinctKeys(props)
    requires forall k :: k in base ==> !(CustomPrefix <= k)
    ensures JoinParams(props, base).Keys == base.Keys + set p | p in props && Forwarded(p.0) :: CustomKey(p.0)
    ensures forall k :: k in base ==> JoinParams(props, base)[k] == base[k]
    ensures forall p :: p in props && Forwarded(p.0) ==> JoinParams(props, base)[CustomKey(p.0)] == p.1
    ensures forall p :: p in props && !Forwarded(p.0) ==> CustomKey(p.0) !in JoinParams(props, base)
  {
    var selected := SelectForwarded(props);
    SpreadSpec(selected, base);
    assert CustomKeys(selected) == set p | p in props && Forwarded(p.0) :: CustomKey(p.0);
    forall p | p in props && !Forwarded(p.0) ensures CustomKey(p.0) !in JoinParams(props, base) {
      if CustomKey(p.0) in CustomKeys(selected) {
        var q :| q in selected && CustomKey(p.0) == CustomKey(q.0);
        CustomKeyInjective(p.0, q.0);
      }
      assert CustomPrefix <= CustomKey(p.0);
    }
  }
}
