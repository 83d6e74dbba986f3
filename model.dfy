/**
 * The change-set model: qualifiers, bindings and change-sets, as they reach
 * the formatter, and the JSON field names shared with the key bindings parser.
 */
module KbaModel {
  import opened Wrappers

  // Field names and the action literal of the key bindings parser.
  const METADATA_JSON_KEY: string := "metadata"
  const DESCRIPTION_JSON_KEY: string := "description"
  const TYPE_JSON_KEY: string := "type"
  const CHANGE_SETS_JSON_KEY: string := "changeSets"
  const SCHEME_JSON_KEY: string := "scheme"
  const PLATFORM_JSON_KEY: string := "platform"
  const CONTEXT_JSON_KEY: string := "context"
  const ACTION_JSON_KEY: string := "action"
  const ADD_JSON_KEY: string := "add"
  const BINDINGS_JSON_KEY: string := "bindings"
  const KEYS_JSON_KEY: string := "keys"
  const COMMAND_JSON_KEY: string := "command"
  const COMMAND_PARAMETERS_JSON_KEY: string := "commandParameters"

  /** Scheme, optional platform (None: all platforms) and context of a group of bindings. */
  datatype Qualifier = Qualifier(scheme: string, platform: Option<string>, context: string)

  /** A string-to-string map, in the order its key set is iterated. */
  type ParameterMap = seq<(string, string)>

  /** One key binding: its key sequence, command id and command parameters. */
  datatype KbaBinding = KbaBinding(keySequence: string, cid: string, parameters: ParameterMap)

  datatype Action = Add | Remove

  datatype ChangeSet = ChangeSet(
    scheme: string,
    platform: Option<string>,
    context: string,
    action: Action,
    bindings: seq<KbaBinding>)

  /** A qualifier-to-change-set map, in the order its key set is iterated. */
  type ChangeSetMap = seq<(Qualifier, ChangeSet)>

  /** No key occurs twice: the sequence is the entry list of a map. */
  predicate DistinctKeys<K(==), V>(m: seq<(K, V)>) {
    forall a, b :: 0 <= a < b < |m| ==> m[a].0 != m[b].0
  }

  /** The key set of a map given as its entry list. */
  function KeySet<K, V>(m: seq<(K, V)>): set<K> {
    set k | 0 <= k < |m| :: m[k].0
  }

  /** m lists the entries of the hash map hm, each once, in some iteration order. */
  predicate Enumerates<K(==), V(==)>(m: seq<(K, V)>, hm: map<K, V>) {
    DistinctKeys(m) && KeySet(m) == hm.Keys &&
    forall i :: 0 <= i < |m| ==> m[i].0 in hm && hm[m[i].0] == m[i].1
  }

  /** An entry list with distinct keys has as many entries as keys. */
  lemma {:induction false} DistinctKeysCount<K, V>(m: seq<(K, V)>)
    requires DistinctKeys(m)
    ensures |KeySet(m)| == |m|
  {
    if m != [] {
      var t := m[..|m| - 1];
      DistinctKeysCount(t);
      assert KeySet(m) == KeySet(t) + {m[|m| - 1].0} by {
        forall k | k in KeySet(m) ensures k in KeySet(t) + {m[|m| - 1].0} {
          var j :| 0 <= j < |m| && m[j].0 == k;
          if j < |m| - 1 { assert t[j] == m[j]; }
        }
        forall k | k in KeySet(t) ensures k in KeySet(m) {
          var j :| 0 <= j < |t| && t[j].0 == k;
          assert m[j] == t[j];
        }
      }
      assert m[|m| - 1].0 !in KeySet(t);
    }
  }

  /** An enumeration of a hash map has one entry per key. */
  lemma EnumerationLength<K, V>(m: seq<(K, V)>, hm: map<K, V>)
    requires Enumerates(m, hm)
    ensures |m| == |hm|
  {
    DistinctKeysCount(m);
    assert hm.Keys == KeySet(m);
  }
}
