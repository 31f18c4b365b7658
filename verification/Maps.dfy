/** What the verifier does not see about maps by itself. */
module Maps {
  lemma ValuesAdded<T>(m: map<nat, T>, k: nat, v: T)
    requires k !in m
    ensures m[k := v].Values == m.Values + {v}
  {
    var n := m[k := v];
    forall x | x in m.Values + {v} ensures x in n.Values {
      if x in m.Values {
        var j :| j in m && m[j] == x;
        assert n[j] == x;
      } else {
        assert n[k] == x;
      }
    }
  }
}
