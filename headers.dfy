/** HTTP header maps as the client holds them: a PHP array from header name
    to value, which keeps its insertion order and never repeats a key.
    Keys are compared exactly (PHP array keys are case-sensitive). */
module Headers {
  import opened Php

  predicate UniqueKeys(h: seq<(string, string)>) {
    forall i, j :: 0 <= i < j < |h| ==> h[i].0 != h[j].0
  }

  type HeaderMap = h: seq<(string, string)> | UniqueKeys(h) witness []

  predicate HasKey(h: seq<(string, string)>, key: string) {
    exists i :: 0 <= i < |h| && h[i].0 == key
  }

  /** Where `key` first occurs in `h`, or `|h|` when it does not. */
  function IndexOf(h: seq<(string, string)>, key: string): (i: nat)
    ensures i <= |h|
    ensures i < |h| ==> h[i].0 == key
    ensures forall j :: 0 <= j < i ==> h[j].0 != key
  {
    if |h| == 0 then 0
    else if h[0].0 == key then 0
    else 1 + IndexOf(h[1..], key)
  }

  /** `$h[key]`, or nothing when the key is absent. */
  function Lookup(h: seq<(string, string)>, key: string): (r: Option<string>)
    ensures r.Some? <==> HasKey(h, key)
    ensures r.Some? ==> (key, r.value) in h
  {
    var i := IndexOf(h, key);
    if i < |h| then Some(h[i].1) else None
  }

  /** In a header map every entry is what a lookup of its key finds. */
  lemma LookupEntry(h: HeaderMap, j: nat)
    requires j < |h|
    ensures Lookup(h, h[j].0) == Some(h[j].1)
  {
  }

  /** `$h[key] = value`: an existing entry is overwritten where it stands,
      a new key is appended at the end; every other entry stays as it was,
      in place. */
  function Set(h: HeaderMap, key: string, value: string): (r: HeaderMap)
    ensures |r| == if HasKey(h, key) then |h| else |h| + 1
    ensures forall i :: 0 <= i < |h| ==> r[i].0 == h[i].0
    ensures forall i :: 0 <= i < |h| && h[i].0 != key ==> r[i] == h[i]
    ensures !HasKey(h, key) ==> r[|h|] == (key, value)
    ensures Lookup(r, key) == Some(value)
    ensures forall k :: k != key ==> Lookup(r, k) == Lookup(h, k)
  {
    var i := IndexOf(h, key);
    var r: HeaderMap := if i < |h| then h[i := (key, value)] else h + [(key, value)];
    var at := if i < |h| then i else |h|;
    assert r[at] == (key, value);
    LookupEntry(r, at);
    forall k | k != key
      ensures Lookup(r, k) == Lookup(h, k)
    {
      if HasKey(h, k) {
        var j :| 0 <= j < |h| && h[j].0 == k;
        LookupEntry(h, j);
        LookupEntry(r, j);
      } else {
        assert !HasKey(r, k);
      }
    }
    r
  }
}
