/** The two array operations the stringifier applies to lists of rendered strings:
    `Array.prototype.join` and the "push only non-empty strings" filter of the
    signature loop. */
module Strings {

  /** `parts.join(sep)`: the parts in order, with `sep` between neighbours. */
  function Join(parts: seq<string>, sep: string): string
  {
    if |parts| == 0 then ""
    else if |parts| == 1 then parts[0]
    else parts[0] + sep + Join(parts[1..], sep)
  }

  /** Joining two non-empty arrays one after the other puts one separator between
      their joined strings. */
  lemma {:induction false} JoinConcat(a: seq<string>, b: seq<string>, sep: string)
    requires |a| > 0 && |b| > 0
    ensures Join(a + b, sep) == Join(a, sep) + sep + Join(b, sep)
  {
    if |a| > 1 {
      assert (a + b)[1..] == a[1..] + b;
      JoinConcat(a[1..], b, sep);
    }
  }

  /** What stands before part `i` of a joined array: the earlier parts joined, then
      one separator (nothing when there are no earlier parts). */
  function Before(earlier: seq<string>, sep: string): string {
    if |earlier| == 0 then "" else Join(earlier, sep) + sep
  }

  /** What stands after part `i`: one separator, then the later parts joined. */
  function After(later: seq<string>, sep: string): string {
    if |later| == 0 then "" else sep + Join(later, sep)
  }

  /** Every part appears in the joined string between the parts that precede it and
      the parts that follow it in the array, with exactly one separator on each
      side that has neighbours: joining preserves the order of the parts. */
  lemma {:induction false} JoinAround(parts: seq<string>, sep: string, i: nat)
    requires i < |parts|
    ensures Join(parts, sep) == Before(parts[..i], sep) + parts[i] + After(parts[i + 1..], sep)
  {
    var pre, mid, post := parts[..i], [parts[i]], parts[i + 1..];
    assert Join(mid, sep) == parts[i];
    if |post| > 0 {
      assert mid + post == parts[i..];
      JoinConcat(mid, post, sep);
    } else {
      assert mid == parts[i..];
    }
    assert Join(parts[i..], sep) == parts[i] + After(post, sep);
    if |pre| > 0 {
      assert pre + parts[i..] == parts;
      JoinConcat(pre, parts[i..], sep);
    } else {
      assert parts[i..] == parts;
    }
  }

  /** Extending a prefix by one element. */
  lemma PrefixStep<T>(s: seq<T>, i: nat)
    requires i < |s|
    ensures s[..i + 1] == s[..i] + [s[i]]
  {
  }

  /** The length of a joined array: the parts' lengths plus one separator between
      each pair of neighbours. */
  function TotalLength(parts: seq<string>): nat {
    if |parts| == 0 then 0 else |parts[0]| + TotalLength(parts[1..])
  }

  lemma {:induction false} JoinLength(parts: seq<string>, sep: string)
    ensures |Join(parts, sep)| == TotalLength(parts) + (if |parts| == 0 then 0 else (|parts| - 1) * |sep|)
  {
    if |parts| > 1 {
      JoinLength(parts[1..], sep);
    }
  }

  /** With a non-empty separator, a joined string is empty exactly when there are no
      parts or a single empty part. */
  lemma JoinEmpty(parts: seq<string>, sep: string)
    requires sep != ""
    ensures Join(parts, sep) == "" <==> |parts| == 0 || (|parts| == 1 && parts[0] == "")
  {
    JoinLength(parts, sep);
    if |parts| >= 2 {
      assert (|parts| - 1) * |sep| >= |sep|;
    }
  }

  /** The strings of `parts` that are not empty, in their original order (the
      `if (param.length > 0) params.push(param)` filter). */
  function NonEmpty(parts: seq<string>): (r: seq<string>)
    ensures |r| <= |parts|
    ensures forall i :: 0 <= i < |r| ==> r[i] != ""
    ensures (forall i :: 0 <= i < |parts| ==> parts[i] != "") ==> r == parts
    ensures (forall i :: 0 <= i < |parts| ==> parts[i] == "") ==> r == []
  {
    if |parts| == 0 then []
    else (if parts[0] != "" then [parts[0]] else []) + NonEmpty(parts[1..])
  }

  /** Filtering distributes over concatenation. */
  lemma {:induction false} NonEmptyAppend(a: seq<string>, b: seq<string>)
    ensures NonEmpty(a + b) == NonEmpty(a) + NonEmpty(b)
  {
    if |a| == 0 {
      assert a + b == b;
    } else {
      assert (a + b)[1..] == a[1..] + b;
      NonEmptyAppend(a[1..], b);
    }
  }

  /** A one-element array keeps its element exactly when it is not empty. */
  lemma NonEmptySingle(x: string)
    ensures NonEmpty([x]) == if x != "" then [x] else []
  {
    assert [x][1..] == [];
  }

  /** Filtering a three-element array keeps, in order, those of its elements that are
      not empty. */
  lemma NonEmptyOfThree(a: string, b: string, c: string)
    ensures NonEmpty([a, b, c])
         == (if a != "" then [a] else []) + (if b != "" then [b] else []) + (if c != "" then [c] else [])
  {
    NonEmptyCons(c, []);
    assert [c] + [] == [c];
    NonEmptyCons(b, [c]);
    assert [b] + [c] == [b, c];
    NonEmptyCons(a, [b, c]);
    assert [a] + [b, c] == [a, b, c];
  }

  /** Filtering an array with one more string in front. */
  lemma NonEmptyCons(x: string, rest: seq<string>)
    ensures NonEmpty([x] + rest) == (if x != "" then [x] else []) + NonEmpty(rest)
  {
    assert ([x] + rest)[1..] == rest;
  }

  /** `Join` of one string is that string. */
  lemma JoinOfOne(a: string, sep: string)
    ensures Join([a], sep) == a
  {
  }

  /** `Join` of three strings. */
  lemma JoinOfThree(a: string, b: string, c: string, sep: string)
    ensures Join([a, b, c], sep) == a + sep + b + sep + c
  {
    assert [b, c][1..] == [c];
    assert Join([b, c], sep) == b + sep + c;
    assert [a, b, c][1..] == [b, c];
    assert Join([a, b, c], sep) == a + sep + (b + sep + c);
  }
}
