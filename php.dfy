/** The slice of PHP's value model that the HTTP client relies on: the values
    `json_decode($s, true)` produces, the exceptions the client raises or lets
    through, and PHP 8's rules for `isset`, `empty`, loose `==` against a
    string and arithmetic on such values. */
module Php {

  datatype Option<+T> = None | Some(value: T)

  /** The exceptions that reach callers of the client. */
  datatype Failure =
    | SdkException(message: string)
    | CurlException(message: string)
    | TypeError             // a non-array handed to an `array` parameter, or arithmetic on an array/string
    | DivisionByZeroError   // `/` with a zero divisor (PHP 8 throws)
    | ValueError            // an argument out of a built-in's range, such as a negative `usleep`

  /** A return value, or the exception thrown instead of returning. */
  datatype Result<+T> = Ok(value: T) | Err(failure: Failure)

  /** A PHP value as decoded from JSON with associative arrays: JSON objects
      become ordered string-keyed arrays, JSON lists become lists, integers
      and floats are both numbers. */
  datatype Value =
    | Null
    | Bool(b: bool)
    | Num(n: real)
    | Str(s: string)
    | List(items: seq<Value>)
    | Assoc(entries: seq<(string, Value)>)

  /** `is_array($v)`. */
  predicate IsArray(v: Value) {
    v.List? || v.Assoc?
  }

  /** The value stored under `key`; when a decoded object repeats a key the
      later entry wins, as in `json_decode`. */
  function EntryOf(entries: seq<(string, Value)>, key: string): Option<Value> {
    if |entries| == 0 then None
    else if entries[|entries| - 1].0 == key then Some(entries[|entries| - 1].1)
    else EntryOf(entries[..|entries| - 1], key)
  }

  /** A key is found exactly when some entry has it, and then the value found
      is that of its last entry. */
  lemma {:induction false} EntryOfLast(entries: seq<(string, Value)>, key: string)
    ensures EntryOf(entries, key).None? <==> forall i :: 0 <= i < |entries| ==> entries[i].0 != key
    ensures EntryOf(entries, key).Some? ==>
      exists i :: 0 <= i < |entries| && entries[i] == (key, EntryOf(entries, key).value)
        && forall j :: i < j < |entries| ==> entries[j].0 != key
  {
    if |entries| > 0 && entries[|entries| - 1].0 != key {
      var init := entries[..|entries| - 1];
      EntryOfLast(init, key);
      if EntryOf(init, key).Some? {
        var i :| 0 <= i < |init| && init[i] == (key, EntryOf(init, key).value)
          && forall j :: i < j < |init| ==> init[j].0 != key;
        assert entries[i] == init[i];
      } else {
        forall i | 0 <= i < |entries|
          ensures entries[i].0 != key
        {
          if i < |init| {
            assert entries[i] == init[i];
          }
        }
      }
    }
  }

  /** The entries without those under `key`, in their order. */
  function WithoutKey(entries: seq<(string, Value)>, key: string): (r: seq<(string, Value)>)
    ensures |r| <= |entries|
  {
    if |entries| == 0 then []
    else
      var init := WithoutKey(entries[..|entries| - 1], key);
      if entries[|entries| - 1].0 == key then init else init + [entries[|entries| - 1]]
  }

  /** Dropping a key's entries hides that key and no other. */
  lemma {:induction false} WithoutKeyEntryOf(entries: seq<(string, Value)>, key: string, k: string)
    ensures EntryOf(WithoutKey(entries, key), k) == if k == key then None else EntryOf(entries, k)
  {
    if |entries| > 0 {
      var init := entries[..|entries| - 1];
      var last := entries[|entries| - 1];
      WithoutKeyEntryOf(init, key, k);
      if last.0 != key {
        var w := WithoutKey(init, key);
        assert (w + [last])[..|w|] == w;
      }
    }
  }

  /** An entry in front of the others does not change what another key finds. */
  lemma {:induction false} EntryOfSkipFirst(entries: seq<(string, Value)>, k: string)
    requires |entries| > 0 && entries[0].0 != k
    ensures EntryOf(entries, k) == EntryOf(entries[1..], k)
  {
    if |entries| > 1 && entries[|entries| - 1].0 != k {
      EntryOfSkipFirst(entries[..|entries| - 1], k);
      assert entries[..|entries| - 1][1..] == entries[1..][..|entries| - 2];
    }
  }

  /** The values `foreach` visits in a decoded object: one per distinct key,
      at the key's first position, holding the key's last value (the array
      `json_decode` builds overwrites a repeated key in place). */
  function ObjectValues(entries: seq<(string, Value)>): seq<Value>
    decreases |entries|
  {
    if |entries| == 0 then []
    else
      var key := entries[0].0;
      [ValueOr(EntryOf(entries, key))] + ObjectValues(WithoutKey(entries[1..], key))
  }

  /** `e` is what a lookup of some key finds in the object. */
  ghost predicate LookedUp(entries: seq<(string, Value)>, e: Value) {
    exists k :: EntryOf(entries, k) == Some(e)
  }

  /** `foreach` over a decoded object visits exactly the values a lookup of
      some key finds. */
  lemma {:induction false} ObjectValuesAreLookups(entries: seq<(string, Value)>)
    ensures forall e :: e in ObjectValues(entries) <==> LookedUp(entries, e)
    decreases |entries|
  {
    if |entries| > 0 {
      var key := entries[0].0;
      var rest := WithoutKey(entries[1..], key);
      ObjectValuesAreLookups(rest);
      EntryOfLast(entries, key);
      var first := EntryOf(entries, key);
      assert first.Some? by {
        assert 0 < |entries| && entries[0].0 == key;
      }
      assert ObjectValues(entries) == [first.value] + ObjectValues(rest);
      forall e
        ensures e in ObjectValues(entries) <==> exists k :: EntryOf(entries, k) == Some(e)
      {
        if e == first.value {
          assert EntryOf(entries, key) == Some(e);
        } else if e in ObjectValues(entries) {
          assert e in ObjectValues(rest);
          var k :| EntryOf(rest, k) == Some(e);
          WithoutKeyEntryOf(entries[1..], key, k);
          EntryOfSkipFirst(entries, k);
          assert EntryOf(entries, k) == Some(e);
        }
        if exists k :: EntryOf(entries, k) == Some(e) {
          var k :| EntryOf(entries, k) == Some(e);
          if k != key {
            WithoutKeyEntryOf(entries[1..], key, k);
            EntryOfSkipFirst(entries, k);
            assert EntryOf(rest, k) == Some(e);
          }
        }
      }
      assert forall e :: e in ObjectValues(entries) <==> LookedUp(entries, e);
    } else {
      forall e
        ensures e !in ObjectValues(entries) && forall k :: EntryOf(entries, k) != Some(e)
      {
      }
      assert forall e :: e in ObjectValues(entries) <==> LookedUp(entries, e);
    }
  }

  /** `$v[key]` inside `isset`, for a string key: only an associative array can
      hold one; `isset` finds nothing in anything else and never throws. */
  function Member(v: Value, key: string): Option<Value> {
    if v.Assoc? then EntryOf(v.entries, key) else None
  }

  /** `isset($v[k1][k2])`'s inner step: a missing outer value has no members
      either. */
  function Offset(o: Option<Value>, key: string): Option<Value> {
    if o.Some? then Member(o.value, key) else None
  }

  /** `$v[key]` read outside `isset`, for a non-numeric string key, under
      PHP 8: reading it from a string throws TypeError; from `null`, a boolean,
      a number, or an array without the key it yields `null` (with a warning). */
  function Read(v: Value, key: string): Result<Option<Value>> {
    if v.Str? then Err(TypeError) else Ok(Member(v, key))
  }

  /** `$v[k1][k2]` read outside `isset`: a throwing outer read throws, a
      missing outer value reads as `null`, whose members are missing too. */
  function ReadIn(outer: Result<Option<Value>>, key: string): Result<Option<Value>> {
    match outer
    case Err(f) => Err(f)
    case Ok(None) => Ok(None)
    case Ok(Some(v)) => Read(v, key)
  }

  /** What reading a possibly missing element evaluates to (`null` when missing). */
  function ValueOr(o: Option<Value>): Value {
    if o.Some? then o.value else Null
  }

  /** `isset(...)`: present and not null. */
  predicate Isset(o: Option<Value>) {
    o.Some? && !o.value.Null?
  }

  /** `empty($v)`: the value is one of PHP's falsy values. */
  predicate IsEmpty(v: Value)
    ensures IsEmpty(v) <==>
      v in {Null, Bool(false), Num(0.0), Str(""), Str("0"), List([]), Assoc([])}
  {
    match v
    case Null => true
    case Bool(b) => !b
    case Num(n) => n == 0.0
    case Str(s) => s == "" || s == "0"
    case List(items) => |items| == 0
    case Assoc(entries) => |entries| == 0
  }

  /** `$v == $s` under PHP 8 for a string `s` that is not numeric: strings
      compare by content, a boolean against the string's truthiness, `null`
      against the empty string; a number is compared as its decimal text,
      which never spells a non-numeric string, and an array is never equal. */
  predicate LooseEqualsText(v: Value, s: string)
    ensures s != "" && s != "0" ==> (LooseEqualsText(v, s) <==> v == Str(s) || v == Bool(true))
    ensures s == "" ==> (LooseEqualsText(v, s) <==> v in {Str(""), Bool(false), Null})
  {
    match v
    case Str(t) => t == s
    case Bool(b) => b == (s != "" && s != "0")
    case Null => s == ""
    case _ => false
  }

  /** A float passed where a built-in expects an int: the fraction is cut
      off toward zero. */
  function TruncateToInt(x: real): (i: int)
    ensures 0.0 <= x ==> 0 <= i && i as real <= x < i as real + 1.0
    ensures x < 0.0 ==> i <= 0 && i as real - 1.0 < x <= i as real
  {
    if x >= 0.0 then x.Floor else -((-x).Floor)
  }

  /** The number an arithmetic operand contributes: a missing element or
      `null` is 0, `false`/`true` are 0/1; arrays throw TypeError. Strings are
      taken as non-numeric and throw TypeError as well. */
  function ToNumber(o: Option<Value>): Result<real> {
    match ValueOr(o)
    case Null => Ok(0.0)
    case Bool(b) => Ok(if b then 1.0 else 0.0)
    case Num(n) => Ok(n)
    case _ => Err(TypeError)
  }
}
