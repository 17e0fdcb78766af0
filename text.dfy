/** Python's `sep.join(parts)` and a first-occurrence search, with the facts the model needs. */
module Text {
  import opened Wrappers

  /** `sep.join(parts)`: the parts in order with `sep` between neighbours; `""` for no parts. */
  function Join(parts: seq<string>, sep: string): (r: string)
    ensures |parts| == 0 ==> r == ""
    ensures |parts| == 1 ==> r == parts[0]
    ensures |parts| > 0 ==> |parts[0]| <= |r| && r[..|parts[0]|] == parts[0]
  {
    if |parts| == 0 then ""
    else if |parts| == 1 then parts[0]
    else parts[0] + sep + Join(parts[1..], sep)
  }

  /** Total length of all parts. */
  function TotalLength(parts: seq<string>): nat
  {
    if |parts| == 0 then 0 else |parts[0]| + TotalLength(parts[1..])
  }

  /** Nothing is dropped or added: the joined text is every part plus one separator per gap. */
  lemma {:induction false} JoinLength(parts: seq<string>, sep: string)
    requires |parts| > 0
    ensures |Join(parts, sep)| == TotalLength(parts) + |sep| * (|parts| - 1)
  {
    if |parts| > 1 {
      JoinLength(parts[1..], sep);
    }
  }

  /** Joining a concatenation joins the halves with one separator between them. */
  lemma {:induction false} JoinAppend(a: seq<string>, b: seq<string>, sep: string)
    requires |a| > 0 && |b| > 0
    ensures Join(a + b, sep) == Join(a, sep) + sep + Join(b, sep)
  {
    if |a| == 1 {
      assert (a + b)[1..] == b;
    } else {
      assert (a + b)[1..] == a[1..] + b;
      JoinAppend(a[1..], b, sep);
    }
  }

  /** What precedes part `i` in the joined text. */
  function JoinedBefore(parts: seq<string>, sep: string, i: nat): string
    requires i <= |parts|
  {
    if i == 0 then "" else Join(parts[..i], sep) + sep
  }

  /** What follows part `i` in the joined text. */
  function JoinedAfter(parts: seq<string>, sep: string, i: nat): string
    requires i < |parts|
  {
    if i == |parts| - 1 then "" else sep + Join(parts[i + 1..], sep)
  }

  /** Part `i` occurs whole, in its own position: the earlier parts joined before it, the later ones after it. */
  lemma JoinAt(parts: seq<string>, sep: string, i: nat)
    requires i < |parts|
    ensures Join(parts, sep) == JoinedBefore(parts, sep, i) + parts[i] + JoinedAfter(parts, sep, i)
  {
    var rest := parts[i..];
    assert parts == parts[..i] + rest;
    assert Join(rest, sep) == parts[i] + JoinedAfter(parts, sep, i) by {
      if i < |parts| - 1 {
        assert rest[1..] == parts[i + 1..];
      }
    }
    if i > 0 {
      JoinAppend(parts[..i], rest, sep);
    }
  }

  /** Index of the first occurrence of `c` in `s`, if any. */
  function FirstIndexOf(s: string, c: char): (r: Option<nat>)
    ensures r.Some? ==> r.value < |s| && s[r.value] == c
    ensures r.Some? ==> forall j :: 0 <= j < r.value ==> s[j] != c
    ensures r.None? <==> c !in s
  {
    if |s| == 0 then None
    else if s[0] == c then Some(0)
    else match FirstIndexOf(s[1..], c)
      case None => None
      case Some(k) => Some(k + 1)
  }
}
