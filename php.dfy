/** The parts of PHP's runtime that the library leans on: ordered arrays with
    string keys, the `empty()` test and `explode(':', ...)`. */
module Php {

  datatype Option<+T> = None | Some(value: T)

  datatype Result<+T, +E> = Success(value: T) | Failure(error: E)

  /** One `key => value` slot of a PHP array. */
  datatype Entry<+V> = Entry(key: string, val: V)

  /** The PHP values this library puts into a payload. An array keeps its
      insertion order, which is also the order `json_encode` writes it in. */
  datatype Value =
    | Null
    | Bool(b: bool)
    | Int(i: int)
    | Str(s: string)
    | Arr(entries: seq<Entry<Value>>)

  // ---------------------------------------------------------------------
  // Arrays as ordered association lists
  // ---------------------------------------------------------------------

  /** `array_keys($a)`, in order. */
  function Keys<V>(a: seq<Entry<V>>): (ks: seq<string>)
    ensures |ks| == |a|
    ensures forall i :: 0 <= i < |a| ==> ks[i] == a[i].key
  {
    if a == [] then [] else [a[0].key] + Keys(a[1..])
  }

  /** A well-formed PHP array holds every key at most once. */
  ghost predicate UniqueKeys<V>(a: seq<Entry<V>>) {
    var ks := Keys(a);
    forall i, j :: 0 <= i < j < |ks| ==> ks[i] != ks[j]
  }

  /** `$a[$k]`, or None when `$k` is not a key of `$a`. */
  function Lookup<V>(a: seq<Entry<V>>, k: string): (r: Option<V>)
    ensures r.Some? <==> k in Keys(a)
  {
    if a == [] then None
    else if a[0].key == k then Some(a[0].val)
    else Lookup(a[1..], k)
  }

  /** `$a[$k] = $v`: an existing key keeps its position and gets the new
      value; a new key is appended at the end (lemmas PutLookup, PutKeys). */
  function Put<V>(a: seq<Entry<V>>, k: string, v: V): seq<Entry<V>> {
    if a == [] then [Entry(k, v)]
    else if a[0].key == k then [Entry(k, v)] + a[1..]
    else [a[0]] + Put(a[1..], k, v)
  }

  /** After `$a[$k] = $v`, `$a[$k]` is `$v` and every other key reads as before. */
  lemma {:induction false} PutLookup<V>(a: seq<Entry<V>>, k: string, v: V, j: string)
    ensures Lookup(Put(a, k, v), k) == Some(v)
    ensures j != k ==> Lookup(Put(a, k, v), j) == Lookup(a, j)
  {
    if a != [] && a[0].key != k {
      var r := Put(a, k, v);
      assert r[1..] == Put(a[1..], k, v);
      PutLookup(a[1..], k, v, j);
    }
  }

  /** `$a[$k] = $v` keeps the key order and appends a key that was not there. */
  lemma {:induction false} PutKeys<V>(a: seq<Entry<V>>, k: string, v: V)
    ensures Keys(Put(a, k, v)) == if k in Keys(a) then Keys(a) else Keys(a) + [k]
  {
    var r := Put(a, k, v);
    if a == [] {
    } else if a[0].key == k {
      assert r[1..] == a[1..];
      assert Keys(r) == Keys(a);
    } else {
      var tail := Put(a[1..], k, v);
      assert r[1..] == tail;
      PutKeys(a[1..], k, v);
      assert Keys(a) == [a[0].key] + Keys(a[1..]);
      assert k in Keys(a) <==> k in Keys(a[1..]);
    }
  }

  /** `$a[$k] = $v` never duplicates a key. */
  lemma PutUnique<V>(a: seq<Entry<V>>, k: string, v: V)
    requires UniqueKeys(a)
    ensures UniqueKeys(Put(a, k, v))
  {
    PutKeys(a, k, v);
    if k !in Keys(a) {
      var ks := Keys(a);
      forall i | 0 <= i < |ks| ensures ks[i] != k {
        assert ks[i] in ks;
      }
    }
  }

  // ---------------------------------------------------------------------
  // empty()
  // ---------------------------------------------------------------------

  /** PHP's `empty($x)`; None stands for a property that was never assigned,
      which `empty` reports as empty without a warning. */
  predicate IsEmpty(v: Option<Value>) {
    match v
    case None => true
    case Some(x) =>
      match x
      case Null => true
      case Bool(b) => !b
      case Int(i) => i == 0
      case Str(s) => s == "" || s == "0"
      case Arr(e) => e == []
  }

  /** Documentation: the two strings `empty` reports as empty. */
  lemma EmptyStrings(s: string)
    ensures IsEmpty(Some(Str(s))) <==> s == "" || s == "0"
  {
  }

  // ---------------------------------------------------------------------
  // explode(':', $s) and its inverse implode(':', $parts)
  // ---------------------------------------------------------------------

  /** No character of `s` is a colon. */
  predicate ColonFree(s: string) {
    forall k :: 0 <= k < |s| ==> s[k] != ':'
  }

  /** The position of the first colon of `s`, or `|s|` when there is none. */
  function ColonIndex(s: string): (i: nat)
    ensures i <= |s|
    ensures forall k :: 0 <= k < i ==> s[k] != ':'
    ensures i < |s| ==> s[i] == ':'
  {
    if s == [] then 0
    else if s[0] == ':' then 0
    else ColonIndex(s[1..]) + 1
  }

  /** `implode(':', $parts)`. */
  function Join(parts: seq<string>): string {
    if parts == [] then ""
    else if |parts| == 1 then parts[0]
    else parts[0] + ":" + Join(parts[1..])
  }

  /** `explode(':', $s)`: the colon-separated pieces of `s`, in order (a
      string without a colon gives one piece, the whole string). */
  function Explode(s: string): (parts: seq<string>)
    ensures |parts| >= 1
    decreases |s|
  {
    var i := ColonIndex(s);
    if i == |s| then [s] else [s[..i]] + Explode(s[i + 1..])
  }

  /** The pieces hold no colon. */
  lemma {:induction false} ExplodeColonFree(s: string)
    ensures forall i :: 0 <= i < |Explode(s)| ==> ColonFree(Explode(s)[i])
    decreases |s|
  {
    var i := ColonIndex(s);
    if i < |s| {
      var rest := Explode(s[i + 1..]);
      assert Explode(s) == [s[..i]] + rest;
      ExplodeColonFree(s[i + 1..]);
      forall k | 0 <= k < |Explode(s)| ensures ColonFree(Explode(s)[k]) {
        if k > 0 { assert Explode(s)[k] == rest[k - 1]; }
      }
    }
  }

  /** Joining the pieces with colons gives `s` back. */
  lemma {:induction false} ExplodeJoins(s: string)
    ensures Join(Explode(s)) == s
    decreases |s|
  {
    var i := ColonIndex(s);
    if i < |s| {
      var head, rest := s[..i], Explode(s[i + 1..]);
      assert Explode(s) == [head] + rest;
      ExplodeJoins(s[i + 1..]);
      assert ([head] + rest)[1..] == rest;
      assert Join([head] + rest) == head + ":" + Join(rest);
      assert s == head + ":" + s[i + 1..];
    }
  }

  /** A colon-free string is a single piece. */
  lemma ExplodeWhole(s: string)
    requires ColonFree(s)
    ensures Explode(s) == [s]
  {
    assert ColonIndex(s) == |s|;
  }

  /** A colon-free head before the first colon is the first piece. */
  lemma ExplodeCons(head: string, tail: string)
    requires ColonFree(head)
    ensures Explode(head + ":" + tail) == [head] + Explode(tail)
  {
    var s := head + ":" + tail;
    assert s[|head|] == ':';
    var i := ColonIndex(s);
    assert i == |head|;
    assert s[..i] == head;
    assert s[i + 1..] == tail;
  }

  /** Exploding the colon-joined form of colon-free pieces gives them back. */
  lemma {:induction false} ExplodeJoin(parts: seq<string>)
    requires |parts| >= 1
    requires forall i :: 0 <= i < |parts| ==> ColonFree(parts[i])
    ensures Explode(Join(parts)) == parts
    decreases |parts|
  {
    if |parts| == 1 {
      ExplodeWhole(parts[0]);
    } else {
      ExplodeCons(parts[0], Join(parts[1..]));
      ExplodeJoin(parts[1..]);
      assert parts == [parts[0]] + parts[1..];
    }
  }
}
