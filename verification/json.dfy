/** JSON objects at the level of keys and values, and Go's `omitempty`
    rule: a field is written only when it does not hold its type's zero value. */
module Json {
  import opened Wrappers

  datatype JsonValue =
    | JString(s: string)
    | JBool(b: bool)
    | JNumber(n: int)
    | JArray(items: seq<JsonValue>)
    | JObject(entries: seq<Entry>)

  /** One "key": value member of an object, in output order. */
  datatype Entry = Entry(key: string, value: JsonValue)

  /** Go's emptiness test for `omitempty`: "", false, 0 and the empty slice.
      A nested object (a struct value) is never empty. */
  predicate IsEmptyValue(v: JsonValue)
  {
    match v
    case JString(s) => s == ""
    case JBool(b) => !b
    case JNumber(n) => n == 0
    case JArray(items) => |items| == 0
    case JObject(_) => false
  }

  function KeysOf(es: seq<Entry>): (ks: seq<string>)
    ensures |ks| == |es|
    ensures forall i :: 0 <= i < |es| ==> ks[i] == es[i].key
  {
    seq(|es|, i requires 0 <= i < |es| => es[i].key)
  }

  predicate DistinctKeys(es: seq<Entry>)
  {
    forall i, j :: 0 <= i < j < |es| ==> es[i].key != es[j].key
  }

  /** The members an `omitempty` encoder writes, in declaration order. */
  function OmitEmpty(es: seq<Entry>): (r: seq<Entry>)
    ensures |r| <= |es|
    ensures forall i :: 0 <= i < |r| ==> !IsEmptyValue(r[i].value)
  {
    if |es| == 0 then []
    else if IsEmptyValue(es[0].value) then OmitEmpty(es[1..])
    else [es[0]] + OmitEmpty(es[1..])
  }

  /** The encoder keeps exactly the non-empty members. */
  lemma {:induction false} OmitEmptyMembers(es: seq<Entry>)
    ensures forall e :: e in OmitEmpty(es) <==> e in es && !IsEmptyValue(e.value)
    decreases |es|
  {
    if |es| > 0 {
      OmitEmptyMembers(es[1..]);
      assert forall e :: e in es <==> e == es[0] || e in es[1..];
    }
  }

  /** Dropping members keeps the remaining keys distinct. */
  lemma {:induction false} OmitEmptyDistinct(es: seq<Entry>)
    requires DistinctKeys(es)
    ensures DistinctKeys(OmitEmpty(es))
    decreases |es|
  {
    if |es| > 0 {
      var rest := OmitEmpty(es[1..]);
      OmitEmptyDistinct(es[1..]);
      OmitEmptyMembers(es[1..]);
      forall e | e in rest ensures e.key != es[0].key {
        var j :| 0 <= j < |es[1..]| && es[1..][j] == e;
        assert es[j + 1] == e;
      }
    }
  }

  /** An object with nothing non-empty in it is written as {}. */
  lemma OmitAllEmpty(es: seq<Entry>)
    requires forall i :: 0 <= i < |es| ==> IsEmptyValue(es[i].value)
    ensures OmitEmpty(es) == []
  {
    var r := OmitEmpty(es);
    OmitEmptyMembers(es);
    if |r| > 0 {
      assert false;
    }
  }

  lemma SliceOfTail(es: seq<Entry>, j: nat, k: nat)
    requires 0 < j <= k <= |es|
    ensures es[j..k] == es[1..][j - 1..k - 1]
  {
    forall n | 0 <= n < k - j
      ensures es[j..k][n] == es[1..][j - 1..k - 1][n]
    {
    }
  }

  /** An object made of a kept run, a dropped run, a kept run and a dropped
      run is written as the two kept runs. */
  lemma {:induction false} OmitRuns(es: seq<Entry>, i: nat, j: nat, k: nat)
    requires i <= j <= k <= |es|
    requires forall n :: 0 <= n < i ==> !IsEmptyValue(es[n].value)
    requires forall n :: i <= n < j ==> IsEmptyValue(es[n].value)
    requires forall n :: j <= n < k ==> !IsEmptyValue(es[n].value)
    requires forall n :: k <= n < |es| ==> IsEmptyValue(es[n].value)
    ensures OmitEmpty(es) == es[..i] + es[j..k]
    decreases |es|
  {
    if k == 0 {
      OmitAllEmpty(es);
    } else if i > 0 {
      OmitRuns(es[1..], i - 1, j - 1, k - 1);
      assert es[..i] == [es[0]] + es[1..][..i - 1];
      SliceOfTail(es, j, k);
    } else if j > 0 {
      OmitRuns(es[1..], 0, j - 1, k - 1);
      SliceOfTail(es, j, k);
    } else {
      OmitRuns(es[1..], 0, 0, k - 1);
      assert es[..k] == [es[0]] + es[1..][..k - 1];
    }
  }

  /** The reference reader for the round trips: the value of the first member
      with key `k`. Go's decoder matches keys case-insensitively and lets a later
      duplicate win; on the distinct, exactly spelled keys the encoders write,
      the two agree. */
  function Lookup(es: seq<Entry>, k: string): Option<JsonValue>
  {
    if |es| == 0 then None
    else if es[0].key == k then Some(es[0].value)
    else Lookup(es[1..], k)
  }

  lemma {:induction false} LookupFound(es: seq<Entry>, i: nat)
    requires i < |es|
    requires forall j :: 0 <= j < i ==> es[j].key != es[i].key
    ensures Lookup(es, es[i].key) == Some(es[i].value)
    decreases i
  {
    if i > 0 {
      LookupFound(es[1..], i - 1);
    }
  }

  lemma {:induction false} LookupMissing(es: seq<Entry>, k: string)
    requires forall e :: e in es ==> e.key != k
    ensures Lookup(es, k) == None
    decreases |es|
  {
    if |es| > 0 {
      assert es[0] in es;
      assert forall e :: e in es[1..] ==> e in es;
      LookupMissing(es[1..], k);
    }
  }

  /** Decoding what `omitempty` wrote finds a field's value exactly when the
      value was not empty. */
  lemma {:induction false} LookupOmitEmpty(es: seq<Entry>, i: nat)
    requires DistinctKeys(es) && i < |es|
    ensures Lookup(OmitEmpty(es), es[i].key)
         == if IsEmptyValue(es[i].value) then None else Some(es[i].value)
  {
    var r := OmitEmpty(es);
    var k := es[i].key;
    OmitEmptyMembers(es);
    OmitEmptyDistinct(es);
    if IsEmptyValue(es[i].value) {
      forall e | e in r ensures e.key != k {
        var j :| 0 <= j < |es| && es[j] == e;
        assert j != i;
      }
      LookupMissing(r, k);
    } else {
      assert es[i] in es;
      var m :| 0 <= m < |r| && r[m] == es[i];
      LookupFound(r, m);
    }
  }

  /** With distinct keys, a field's key is written exactly when its value is not empty. */
  lemma {:induction false} KeyEmittedIff(es: seq<Entry>, i: nat)
    requires DistinctKeys(es) && i < |es|
    ensures es[i].key in KeysOf(OmitEmpty(es)) <==> !IsEmptyValue(es[i].value)
  {
    var r := OmitEmpty(es);
    LookupOmitEmpty(es, i);
    LookupIffKey(r, es[i].key);
  }

  lemma {:induction false} LookupIffKey(es: seq<Entry>, k: string)
    ensures Lookup(es, k).Some? <==> k in KeysOf(es)
    decreases |es|
  {
    if |es| > 0 {
      LookupIffKey(es[1..], k);
      assert KeysOf(es) == [es[0].key] + KeysOf(es[1..]);
    }
  }

  /** Pairs each key with the value at the same position. */
  function Zip(keys: seq<string>, values: seq<JsonValue>): (es: seq<Entry>)
    requires |keys| == |values|
    ensures |es| == |keys|
    ensures forall i :: 0 <= i < |keys| ==> es[i] == Entry(keys[i], values[i])
  {
    seq(|keys|, i requires 0 <= i < |keys| => Entry(keys[i], values[i]))
  }

  predicate Distinct(keys: seq<string>)
  {
    forall i, j :: 0 <= i < j < |keys| ==> keys[i] != keys[j]
  }

  lemma ZipDistinct(keys: seq<string>, values: seq<JsonValue>)
    requires |keys| == |values| && Distinct(keys)
    ensures DistinctKeys(Zip(keys, values))
  {
  }

  /** An object built from distinct keys is written with distinct keys, all
      among the given ones, and never with an empty value. */
  lemma OmitEmptyOfZip(keys: seq<string>, values: seq<JsonValue>)
    requires |keys| == |values| && Distinct(keys)
    ensures DistinctKeys(OmitEmpty(Zip(keys, values)))
    ensures forall e :: e in OmitEmpty(Zip(keys, values)) ==> e.key in keys && !IsEmptyValue(e.value)
  {
    var es := Zip(keys, values);
    ZipDistinct(keys, values);
    OmitEmptyDistinct(es);
    OmitEmptyMembers(es);
    forall e | e in es ensures e.key in keys {
      var j :| 0 <= j < |es| && es[j] == e;
      assert e.key == keys[j];
    }
  }

  /** Reading a string field into a zero record: absent (or not a string) leaves "". */
  function StringField(es: seq<Entry>, k: string): string
  {
    match Lookup(es, k)
    case Some(JString(s)) => s
    case _ => ""
  }

  /** Reading a bool field into a zero record: absent leaves false. */
  function BoolField(es: seq<Entry>, k: string): bool
  {
    match Lookup(es, k)
    case Some(JBool(b)) => b
    case _ => false
  }

  /** Reading an int field into a zero record: absent leaves 0. */
  function NumberField(es: seq<Entry>, k: string): int
  {
    match Lookup(es, k)
    case Some(JNumber(n)) => n
    case _ => 0
  }

  /** A string field written with `omitempty` decodes to its value ("" when omitted). */
  lemma {:induction false} StringFieldRoundTrip(es: seq<Entry>, i: nat, s: string)
    requires DistinctKeys(es) && i < |es| && es[i].value == JString(s)
    ensures StringField(OmitEmpty(es), es[i].key) == s
  {
    LookupOmitEmpty(es, i);
  }

  /** A bool field written with `omitempty` decodes to its value (false when omitted). */
  lemma {:induction false} BoolFieldRoundTrip(es: seq<Entry>, i: nat, b: bool)
    requires DistinctKeys(es) && i < |es| && es[i].value == JBool(b)
    ensures BoolField(OmitEmpty(es), es[i].key) == b
  {
    LookupOmitEmpty(es, i);
  }

  /** An int field written with `omitempty` decodes to its value (0 when omitted). */
  lemma {:induction false} NumberFieldRoundTrip(es: seq<Entry>, i: nat, n: int)
    requires DistinctKeys(es) && i < |es| && es[i].value == JNumber(n)
    ensures NumberField(OmitEmpty(es), es[i].key) == n
  {
    LookupOmitEmpty(es, i);
  }
}
