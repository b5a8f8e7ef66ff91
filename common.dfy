/**
 * Values shared by the whole model: optional values, the outcome of an
 * operation that may throw, data objects and small sequence helpers.
 */
module Common {

  datatype Option<T> = None | Some(value: T)

  /** The two messages the incremental service throws an ElasticClientException with. */
  datatype ClientError = CreateByBulkError | PartialUpdateError

  /** The text of an exception's message. */
  function Message(error: ClientError): string
  {
    match error
    case CreateByBulkError => "ElasticData createByBulk error"
    case PartialUpdateError => "ElasticData partialUpdate error"
  }

  /**
   * The result of an operation that either returns a count or throws an
   * ElasticClientException whose message is that of `error`.
   */
  datatype Outcome = Success(count: int) | Failure(error: ClientError)

  /** A data object: its business id and the attributes sent to the index. */
  datatype DataObject = DataObject(id: string, attributes: map<string, string>)

  /** The ids of a list of data objects, in the same order. */
  function Ids(objs: seq<DataObject>): seq<string>
  {
    seq(|objs|, i requires 0 <= i < |objs| => objs[i].id)
  }

  lemma {:induction false} IdsAppend(a: seq<DataObject>, b: seq<DataObject>)
    ensures Ids(a + b) == Ids(a) + Ids(b)
  {
    assert |Ids(a + b)| == |Ids(a) + Ids(b)|;
    forall i | 0 <= i < |a + b|
      ensures Ids(a + b)[i] == (Ids(a) + Ids(b))[i]
    {
      if i < |a| {
        assert (a + b)[i] == a[i];
      } else {
        assert (a + b)[i] == b[i - |a|];
      }
    }
  }

  /** Concatenation of a list of lists, in order. */
  function Flatten<T>(ss: seq<seq<T>>): seq<T>
  {
    if ss == [] then [] else ss[0] + Flatten(ss[1..])
  }

  lemma {:induction false} FlattenSnoc<T>(ss: seq<seq<T>>, s: seq<T>)
    ensures Flatten(ss + [s]) == Flatten(ss) + s
  {
    if ss == [] {
      assert [] + [s] == [s];
    } else {
      assert (ss + [s])[1..] == ss[1..] + [s];
      FlattenSnoc(ss[1..], s);
    }
  }

  lemma {:induction false} FlattenAppend<T>(a: seq<seq<T>>, b: seq<seq<T>>)
    ensures Flatten(a + b) == Flatten(a) + Flatten(b)
  {
    if a == [] {
      assert a + b == b;
    } else {
      assert (a + b)[1..] == a[1..] + b;
      FlattenAppend(a[1..], b);
    }
  }

  lemma {:induction false} IdsSnoc(a: seq<DataObject>, o: DataObject)
    ensures Ids(a + [o]) == Ids(a) + [o.id]
  {
    IdsAppend(a, [o]);
    assert Ids([o]) == [o.id];
  }

  lemma {:induction false} EmptySlice(s: seq<DataObject>, i: nat)
    requires i <= |s|
    ensures s[i..i] == [] && Ids([]) == []
  {
  }

  /** A slice extended by the element that follows it. */
  lemma {:induction false} SliceSnoc<T>(s: seq<T>, i: nat, j: nat, front: seq<T>)
    requires i <= j < |s| && front == s[i..j]
    ensures s[i..j + 1] == front + [s[j]]
  {
    assert |s[i..j + 1]| == |front| + 1;
  }

  /** The head and the tail of a suffix. */
  lemma {:induction false} SuffixSplit<T>(s: seq<T>, i: nat, t: seq<T>)
    requires i < |s| && t == s[i..]
    ensures t[0] == s[i] && t[1..] == s[i + 1..]
  {
    assert |t[1..]| == |s[i + 1..]|;
  }

  /** The prefix of length i of the prefix of length i + 1. */
  lemma {:induction false} TakeTake<T>(s: seq<T>, i: nat)
    requires i < |s|
    ensures |s[..i + 1]| == i + 1 && s[..i + 1][..i] == s[..i]
  {
  }

  /** A prefix of a slice is a slice. */
  lemma {:induction false} SliceTake<T>(s: seq<T>, i: nat, j: nat, b: seq<T>, k: nat)
    requires i <= j <= |s| && b == s[i..j] && k <= |b|
    ensures b[..k] == s[i..i + k]
  {
    assert |b[..k]| == |s[i..i + k]|;
  }

  /** The head and the tail of a concatenation whose left part is not empty. */
  lemma {:induction false} ConsAppend<T>(a: seq<T>, b: seq<T>, c: seq<T>)
    requires a != [] && c == a + b
    ensures c != [] && c[0] == a[0] && c[1..] == a[1..] + b
  {
    assert |c[1..]| == |a[1..] + b|;
  }

  /** The prefix of a sequence as long as the sequence is the sequence. */
  lemma {:induction false} TakeAll<T>(s: seq<T>)
    ensures s[..|s|] == s
  {
  }

  /** Concatenation is associative. */
  lemma {:induction false} AppendAssoc<T>(a: seq<T>, b: seq<T>, c: seq<T>)
    ensures (a + b) + c == a + (b + c)
  {
  }

  /** The list [1, 2, ..., m]. */
  function CountUp(m: nat): seq<int>
  {
    seq(m, i requires 0 <= i < m => i + 1)
  }

  lemma {:induction false} CountUpSnoc(m: nat)
    ensures CountUp(m) + [m + 1] == CountUp(m + 1)
  {
    assert |CountUp(m) + [m + 1]| == m + 1;
  }

  ghost predicate Nondecreasing(s: seq<int>)
  {
    forall i, j :: 0 <= i < j < |s| ==> s[i] <= s[j]
  }

  function Min(a: int, b: int): int
  {
    if a <= b then a else b
  }

  /** Decimal rendering of an int, as Java's string concatenation prints it. */
  function IntToString(n: int): string
  {
    if n < 0 then "-" + NatToString(-n) else NatToString(n)
  }

  function NatToString(n: nat): string
    decreases n
  {
    if n < 10 then [DigitChar(n)] else NatToString(n / 10) + [DigitChar(n % 10)]
  }

  function DigitChar(d: nat): char
    requires d < 10
  {
    ['0', '1', '2', '3', '4', '5', '6', '7', '8', '9'][d]
  }
}
