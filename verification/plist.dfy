/** Apple property lists (the PropertyList-1.0 document type) as trees, with
    key lookup and path navigation. */
module Plist {
  import opened Wrappers

  /** A property-list value. A dictionary keeps its entries in document
      order, so the order of keys can be stated. */
  datatype Value =
    | Dict(entries: seq<Entry>)
    | Array(items: seq<Value>)
    | String(text: string)
    | Integer(n: int)
    | Bool(b: bool)

  datatype Entry = Entry(key: string, value: Value)

  /** The keys of a dictionary, in document order. */
  function Keys(entries: seq<Entry>): (ks: seq<string>)
    ensures |ks| == |entries|
    ensures forall i :: 0 <= i < |entries| ==> ks[i] == entries[i].key
  {
    seq(|entries|, i requires 0 <= i < |entries| => entries[i].key)
  }

  predicate Distinct<T(==)>(s: seq<T>)
  {
    forall i, j :: 0 <= i < j < |s| ==> s[i] != s[j]
  }

  /** The property-list format forbids a key twice in one dictionary: every
      dictionary in the tree has distinct keys. */
  predicate WellFormed(v: Value)
  {
    match v
    case Dict(es) => Distinct(Keys(es)) && forall i :: 0 <= i < |es| ==> WellFormed(es[i].value)
    case Array(vs) => forall i :: 0 <= i < |vs| ==> WellFormed(vs[i])
    case _ => true
  }

  /** The value filed under `key`, taken from its first entry. */
  function Lookup(entries: seq<Entry>, key: string): Option<Value>
  {
    if |entries| == 0 then None
    else if entries[0].key == key then Some(entries[0].value)
    else Lookup(entries[1..], key)
  }

  /** A key is found exactly when some entry carries it, and what is found
      is the value of such an entry. */
  lemma {:induction false} LookupFinds(entries: seq<Entry>, key: string)
    ensures Lookup(entries, key).Some? <==> key in Keys(entries)
    ensures Lookup(entries, key).Some? ==> Entry(key, Lookup(entries, key).value) in entries
  {
    if |entries| > 0 && entries[0].key != key {
      LookupFinds(entries[1..], key);
      assert Keys(entries) == [entries[0].key] + Keys(entries[1..]);
    }
  }

  /** With distinct keys an entry is found by its key, whatever its place. */
  lemma {:induction false} LookupEntry(entries: seq<Entry>, key: string, v: Value)
    requires Distinct(Keys(entries))
    requires Entry(key, v) in entries
    ensures Lookup(entries, key) == Some(v)
  {
    if entries[0] != Entry(key, v) {
      var i :| 0 <= i < |entries| && entries[i] == Entry(key, v);
      assert i > 0;
      assert entries[0].key != key by {
        assert Keys(entries)[0] != Keys(entries)[i];
      }
      assert Entry(key, v) in entries[1..] by {
        assert entries[1..][i - 1] == Entry(key, v);
      }
      assert Distinct(Keys(entries[1..])) by {
        forall a, b | 0 <= a < b < |entries| - 1
          ensures Keys(entries[1..])[a] != Keys(entries[1..])[b]
        {
          assert Keys(entries)[a + 1] != Keys(entries)[b + 1];
        }
      }
      LookupEntry(entries[1..], key, v);
    }
  }

  /** One step of a path: a dictionary key or an array position. */
  datatype Step = Key(name: string) | Index(position: nat)

  /** The child a step selects, if there is one. */
  function Child(v: Value, step: Step): Option<Value>
  {
    match step
    case Key(k) => if v.Dict? then Lookup(v.entries, k) else None
    case Index(i) => if v.Array? && i < |v.items| then Some(v.items[i]) else None
  }

  /** The value reached by following `path` from `v`. */
  function At(v: Value, path: seq<Step>): Option<Value>
    decreases |path|
  {
    if |path| == 0 then Some(v)
    else match Child(v, path[0])
      case None => None
      case Some(c) => At(c, path[1..])
  }

  /** Following a path one step at a time. */
  lemma AtStep(v: Value, step: Step, c: Value, rest: seq<Step>)
    requires Child(v, step) == Some(c)
    ensures At(v, [step] + rest) == At(c, rest)
  {
  }

  /** A field of a dictionary whose keys are distinct. */
  lemma AtField(d: Value, key: string, v: Value)
    requires d.Dict? && Distinct(Keys(d.entries)) && Entry(key, v) in d.entries
    ensures At(d, [Key(key)]) == Some(v)
  {
    LookupEntry(d.entries, key, v);
    AtStep(d, Key(key), v, []);
  }
}
