/**
 * The few Python string operations the consumer relies on: repetition of a
 * one-character string (`'=' * n`) and `str.split` with an explicit
 * one-character separator.
 */
module PyStr {
  import opened Wrappers

  /** `[c] * n` in Python terms: the string of `n` copies of `c`. */
  function Repeat(c: char, n: nat): (r: string)
    ensures |r| == n
    ensures forall i :: 0 <= i < n ==> r[i] == c
  {
    if n == 0 then "" else [c] + Repeat(c, n - 1)
  }

  /** The index of the first occurrence of `c` in `s`, if any (`str.find`). */
  function IndexOf(s: string, c: char): (r: Option<nat>)
    ensures r.None? <==> c !in s
    ensures r.Some? ==> r.value < |s| && s[r.value] == c && c !in s[..r.value]
  {
    if |s| == 0 then None
    else if s[0] == c then Some(0)
    else match IndexOf(s[1..], c)
      case None => None
      case Some(i) =>
        assert s[..i + 1] == [s[0]] + s[1..][..i];
        Some(i + 1)
  }

  /**
   * `s.split(sep)`: the maximal separator-free fields of `s`, in order.
   * As in Python, the result is never empty and adjacent separators give
   * empty fields.
   */
  function Split(s: string, sep: char): (fields: seq<string>)
    ensures |fields| >= 1
    ensures |fields| == 1 <==> sep !in s
    ensures forall i :: 0 <= i < |fields| ==> sep !in fields[i]
    decreases |s|
  {
    match IndexOf(s, sep)
    case None => [s]
    case Some(i) => [s[..i]] + Split(s[i + 1..], sep)
  }

  /** `sep.join(fields)`: the inverse of `Split`. */
  function Join(fields: seq<string>, sep: char): (s: string)
    requires |fields| >= 1
  {
    if |fields| == 1 then fields[0] else fields[0] + [sep] + Join(fields[1..], sep)
  }

  /** Joining a field in front of at least one more puts a separator between them. */
  lemma JoinCons(head: string, fields: seq<string>, sep: char)
    requires |fields| >= 1
    ensures Join([head] + fields, sep) == head + [sep] + Join(fields, sep)
  {
  }

  /** A split at the first separator, index `i`, is the field before it and the split of the rest. */
  lemma SplitAt(s: string, sep: char, i: nat)
    requires IndexOf(s, sep) == Some(i)
    ensures Split(s, sep) == [s[..i]] + Split(s[i + 1..], sep)
  {
  }

  /** Joining the fields of a split gives back the original string. */
  lemma {:induction false} JoinSplit(s: string, sep: char)
    ensures Join(Split(s, sep), sep) == s
    decreases |s|
  {
    var r := IndexOf(s, sep);
    if r.Some? {
      var i := r.value;
      JoinSplit(s[i + 1..], sep);
      JoinSplitStep(s, sep, i);
    }
  }

  /** One step of `JoinSplit`: the field before the first separator joins back onto the rest. */
  lemma JoinSplitStep(s: string, sep: char, i: nat)
    requires IndexOf(s, sep) == Some(i)
    requires Join(Split(s[i + 1..], sep), sep) == s[i + 1..]
    ensures Join(Split(s, sep), sep) == s
  {
    var head, rest := s[..i], s[i + 1..];
    var tailFields := Split(rest, sep);
    SplitAt(s, sep, i);
    JoinCons(head, tailFields, sep);
    Reassemble(s, i);
  }

  /** A string is the part before index `i`, the character at `i`, and the part after. */
  lemma Reassemble(s: string, i: nat)
    requires i < |s|
    ensures s == s[..i] + [s[i]] + s[i + 1..]
  {
  }

  /** The first separator of `a + [sep] + b` is the one between them when `a` has none. */
  lemma FirstSeparator(a: string, sep: char, b: string)
    requires sep !in a
    ensures IndexOf(a + [sep] + b, sep) == Some(|a|)
  {
    var s := a + [sep] + b;
    assert s[..|a|] == a;
    assert s[|a|] == sep;
  }

  /** Splitting a join of separator-free fields gives back the fields. */
  lemma {:induction false} SplitJoin(fields: seq<string>, sep: char)
    requires |fields| >= 1
    requires forall i :: 0 <= i < |fields| ==> sep !in fields[i]
    ensures Split(Join(fields, sep), sep) == fields
  {
    if |fields| > 1 {
      var head, tail := fields[0], fields[1..];
      assert fields == [head] + tail;
      assert sep !in head;
      TailSeparatorFree(fields, sep);
      SplitJoin(tail, sep);
      SplitCons(head, tail, sep);
    }
  }

  /** Dropping the first field keeps every field separator-free. */
  lemma TailSeparatorFree(fields: seq<string>, sep: char)
    requires |fields| >= 1
    requires forall i :: 0 <= i < |fields| ==> sep !in fields[i]
    ensures forall i :: 0 <= i < |fields| - 1 ==> sep !in fields[1..][i]
  {
  }

  /** One step of `SplitJoin`: a separator-free head splits off a join. */
  lemma SplitCons(head: string, tail: seq<string>, sep: char)
    requires |tail| >= 1 && sep !in head
    requires Split(Join(tail, sep), sep) == tail
    ensures Split(Join([head] + tail, sep), sep) == [head] + tail
  {
    JoinCons(head, tail, sep);
    SplitAfterFirst(head, sep, Join(tail, sep));
  }

  /** A separator-free first field splits off whatever follows the separator. */
  lemma SplitAfterFirst(head: string, sep: char, rest: string)
    requires sep !in head
    ensures Split(head + [sep] + rest, sep) == [head] + Split(rest, sep)
  {
    var s := head + [sep] + rest;
    FirstSeparator(head, sep, rest);
    SplitAt(s, sep, |head|);
    assert s[..|head|] == head;
    assert s[|head| + 1..] == rest;
  }

  /**
   * `s.split(sep)[1]`: the second field of `s`, or `None` where Python
   * raises `IndexError` because `s` holds no separator.
   */
  function SecondField(s: string, sep: char): (r: Option<string>)
    ensures r.None? <==> sep !in s
    ensures r.Some? ==> sep !in r.value
  {
    var fields := Split(s, sep);
    if |fields| >= 2 then Some(fields[1]) else None
  }

  /**
   * For a payload shaped `<prefix>,<payload>`, the second field is the
   * payload, provided neither part holds a separator.
   */
  lemma SecondFieldOfPrefixed(prefix: string, sep: char, payload: string)
    requires sep !in prefix && sep !in payload
    ensures SecondField(prefix + [sep] + payload, sep) == Some(payload)
  {
    SplitAfterFirst(prefix, sep, payload);
  }

  /** Anything after a second separator is not part of the second field. */
  lemma SecondFieldStopsAtSeparator(prefix: string, sep: char, payload: string, tail: string)
    requires sep !in prefix && sep !in payload
    ensures SecondField(prefix + [sep] + (payload + [sep] + tail), sep) == Some(payload)
  {
    SplitAfterFirst(payload, sep, tail);
    SplitAfterFirst(prefix, sep, payload + [sep] + tail);
  }
}
