/**
 * What configuration-driven discovery (PreparePlug, app/conf.go) may activate.
 *
 * The registration table maps a configuration key to plugin names; a key
 * takes part only when its configuration section holds a value. Go visits
 * the table's keys in no fixed order, so the method is given the visiting
 * order as a sequence; these functions say which names that visit reaches,
 * and that the answer does not depend on the order.
 */
module Discovery {

  /** The names listed under the table keys in `keys` whose section is present. */
  ghost function Listed(keys: seq<string>, present: set<string>, table: map<string, seq<string>>): set<string>
  {
    if keys == [] then {}
    else
      var k := keys[|keys| - 1];
      if k in present && k in table then Listed(keys[..|keys| - 1], present, table) + Members(table[k])
      else Listed(keys[..|keys| - 1], present, table)
  }

  /** The names occurring in `names`. */
  ghost function Members(names: seq<string>): set<string>
  {
    set i | 0 <= i < |names| :: names[i]
  }

  /** No name occurs twice in `s`. */
  ghost predicate NoDuplicates(s: seq<string>)
  {
    forall i, j :: 0 <= i < j < |s| ==> s[i] != s[j]
  }

  /** The names of a longer prefix: those of the shorter one and the next name. */
  lemma MembersStep(names: seq<string>, j: nat)
    requires j < |names|
    ensures Members(names[..j + 1]) == Members(names[..j]) + {names[j]}
  {
    assert forall i :: 0 <= i < j ==> names[..j + 1][i] == names[..j][i];
  }

  /** A list without repetitions has as many distinct names as entries. */
  lemma {:induction false} DistinctCount(s: seq<string>)
    requires NoDuplicates(s)
    ensures |Members(s)| == |s|
  {
    if s != [] {
      var front, last := s[..|s| - 1], s[|s| - 1];
      DistinctCount(front);
      assert Members(s) == Members(front) + {last} by {
        assert forall i :: 0 <= i < |front| ==> front[i] == s[i];
      }
      assert last !in Members(front);
    }
  }

  /** Every name listed under some table key whose configuration section is present. */
  ghost function Activated(present: set<string>, table: map<string, seq<string>>): set<string>
  {
    set k, n | k in table && k in present && n in table[k] :: n
  }

  /** Visiting one more key adds the names it lists, when its section is present. */
  lemma ListedStep(keys: seq<string>, i: nat, present: set<string>, table: map<string, seq<string>>)
    requires i < |keys|
    ensures keys[i] in present && keys[i] in table ==>
              Listed(keys[..i + 1], present, table) == Listed(keys[..i], present, table) + Members(table[keys[i]])
    ensures !(keys[i] in present && keys[i] in table) ==>
              Listed(keys[..i + 1], present, table) == Listed(keys[..i], present, table)
  {
    assert keys[..i + 1][..i] == keys[..i];
  }

  /** A name is listed by a visit exactly when one of the visited, present keys lists it. */
  lemma {:induction false} ListedByVisitedKey(keys: seq<string>, present: set<string>, table: map<string, seq<string>>, n: string)
    ensures n in Listed(keys, present, table) <==>
            exists i :: 0 <= i < |keys| && keys[i] in present && keys[i] in table && n in table[keys[i]]
  {
    if keys != [] {
      var front := keys[..|keys| - 1];
      ListedByVisitedKey(front, present, table, n);
      var k := keys[|keys| - 1];
      if n in Listed(keys, present, table) && n !in Listed(front, present, table) {
        assert k in present && k in table && n in Members(table[k]);
        assert keys[|keys| - 1] == k;
      }
      if exists i :: 0 <= i < |keys| && keys[i] in present && keys[i] in table && n in table[keys[i]] {
        var i :| 0 <= i < |keys| && keys[i] in present && keys[i] in table && n in table[keys[i]];
        if i < |keys| - 1 {
          assert front[i] == keys[i];
        } else {
          var j :| 0 <= j < |table[k]| && table[k][j] == n;
          assert n in Members(table[k]);
        }
      }
    }
  }

  /**
   * Visiting every table key, in any order, reaches exactly the names listed
   * under the present keys: the result of discovery is independent of the
   * order in which Go happens to range over the table.
   */
  lemma VisitOrderIrrelevant(keys: seq<string>, present: set<string>, table: map<string, seq<string>>)
    requires forall k :: k in keys <==> k in table
    ensures Listed(keys, present, table) == Activated(present, table)
  {
    forall n ensures n in Listed(keys, present, table) <==> n in Activated(present, table) {
      ListedByVisitedKey(keys, present, table, n);
      if n in Activated(present, table) {
        var k :| k in table && k in present && n in table[k];
        var i :| 0 <= i < |keys| && keys[i] == k;
      }
    }
  }
}
