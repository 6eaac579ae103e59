/** Environment entries of a compose service.

    Every entry of a service's `environment` list is one string. It is
    either a bare variable name (`VIRTUAL_HOST`: the container receives the
    value the variable has where the compose tool runs) or an assignment
    `KEY=value`, where the key ends at the first `=`. This module splits an
    entry into its key and its value so that the entries the builder emits
    can be read as key/value pairs without changing their literal text.
 */
module Env {

  /** Position of the first `=` in `entry`, or `|entry|` when there is none. */
  function SplitAt(entry: string): (k: nat)
    ensures k <= |entry|
    ensures k < |entry| ==> entry[k] == '='
    ensures forall i :: 0 <= i < k ==> entry[i] != '='
  {
    if |entry| == 0 || entry[0] == '=' then 0 else 1 + SplitAt(entry[1..])
  }

  /** True when the entry assigns a value (`KEY=value`) rather than naming a variable. */
  predicate HasValue(entry: string) {
    SplitAt(entry) < |entry|
  }

  /** The variable an entry sets: everything before the first `=`. */
  function Key(entry: string): string {
    entry[..SplitAt(entry)]
  }

  /** The value an assignment entry gives its variable: everything after the first `=`. */
  function Value(entry: string): string
    requires HasValue(entry)
  {
    entry[SplitAt(entry) + 1..]
  }

  /** The entry that sets `key` to `value`; the compose tool reads it back as that pair. */
  function Assign(key: string, value: string): string {
    key + "=" + value
  }

  /** The keys of an environment list, in order. */
  function Keys(env: seq<string>): (keys: seq<string>)
    ensures |keys| == |env|
    ensures forall i :: 0 <= i < |env| ==> keys[i] == Key(env[i])
  {
    if env == [] then [] else [Key(env[0])] + Keys(env[1..])
  }

  /** An entry written as `key=value`, with no `=` inside `key`, splits back
      into exactly that key and that value. */
  lemma SplitAssignment(key: string, value: string)
    requires '=' !in key
    ensures HasValue(Assign(key, value))
    ensures Key(Assign(key, value)) == key
    ensures Value(Assign(key, value)) == value
  {
    var entry := key + "=" + value;
    var k := SplitAt(entry);
    assert entry[|key|] == '=';
    assert forall i :: 0 <= i < |key| ==> entry[i] == key[i];
    assert k == |key|;
    assert entry[..k] == key;
    assert entry[k + 1..] == value;
  }

  /** An entry without `=` is a bare variable name: it has no value and is its own key. */
  lemma SplitBare(entry: string)
    requires '=' !in entry
    ensures !HasValue(entry)
    ensures Key(entry) == entry
  {
    var k := SplitAt(entry);
    assert forall i :: 0 <= i < |entry| ==> entry[i] != '=';
    assert entry[..k] == entry;
  }
}
