/**
 * The few Python string and list operations the source relies on:
 * `str.split(sep)` with a one-character separator, `str.strip()`,
 * `sep.join(parts)`, `sub in s` and the slice `s[:k]`.
 */
module PyStr {

  /** The characters Python's `str.strip()` removes (`str.isspace()`). */
  predicate IsSpace(c: char) {
    c == ' ' || c == '\t' || c == '\n' || c == '\r' || c == '\U{000B}' || c == '\U{000C}'
    || ('\U{001C}' <= c <= '\U{001F}') || c == '\U{0085}' || c == '\U{00A0}' || c == '\U{1680}'
    || ('\U{2000}' <= c <= '\U{200A}') || c == '\U{2028}' || c == '\U{2029}' || c == '\U{202F}'
    || c == '\U{205F}' || c == '\U{3000}'
  }

  function LStrip(s: string): string {
    if s != [] && IsSpace(s[0]) then LStrip(s[1..]) else s
  }

  function RStrip(s: string): string {
    if s != [] && IsSpace(s[|s| - 1]) then RStrip(s[..|s| - 1]) else s
  }

  /** Python's `s.strip()`. */
  function Strip(s: string): string {
    RStrip(LStrip(s))
  }

  /** `[p.strip() for p in parts]` */
  function StripAll(parts: seq<string>): (r: seq<string>)
    ensures |r| == |parts|
    ensures forall i :: 0 <= i < |parts| ==> r[i] == Strip(parts[i])
  {
    if parts == [] then [] else [Strip(parts[0])] + StripAll(parts[1..])
  }

  /** Python's `s.split(sep)` for a one-character separator: never empty. */
  function Split(s: string, sep: char): (r: seq<string>)
    ensures |r| >= 1
  {
    if s == [] then [""]
    else
      var rest := Split(s[1..], sep);
      if s[0] == sep then [""] + rest else [[s[0]] + rest[0]] + rest[1..]
  }

  /** Python's `sep.join(parts)`. */
  function Join(parts: seq<string>, sep: string): string {
    if parts == [] then ""
    else if |parts| == 1 then parts[0]
    else parts[0] + sep + Join(parts[1..], sep)
  }

  /** Python's `sub in s`: `sub` occurs in `s` as a contiguous piece. */
  predicate Contains(s: string, sub: string) {
    sub <= s || (s != [] && Contains(s[1..], sub))
  }

  /** Python's slice `s[:k]`: a negative `k` counts from the end. */
  function Take<T>(s: seq<T>, k: int): (r: seq<T>)
    ensures 0 <= k ==> |r| == if k < |s| then k else |s|
    ensures k < 0 ==> r == (if |s| + k > 0 then s[..|s| + k] else [])
    ensures r <= s
  {
    if k >= 0 then (if k < |s| then s[..k] else s)
    else if |s| + k > 0 then s[..|s| + k] else []
  }

  // ----- lemmas -----

  /** A string without the separator splits into itself. */
  lemma {:induction false} SplitNoSep(s: string, sep: char)
    requires sep !in s
    ensures Split(s, sep) == [s]
  {
    if s != [] {
      SplitNoSep(s[1..], sep);
      assert [s[0]] + s[1..] == s;
    }
  }

  /** Splitting `a + sep + b` cuts at the separator when `a` has none. */
  lemma {:induction false} SplitAtSep(a: string, sep: char, b: string)
    requires sep !in a
    ensures Split(a + [sep] + b, sep) == [a] + Split(b, sep)
  {
    if a == [] {
      assert a + [sep] + b == [sep] + b;
      assert ([sep] + b)[1..] == b;
    } else {
      var s := a + [sep] + b;
      assert s[0] == a[0] && s[1..] == a[1..] + [sep] + b;
      SplitAtSep(a[1..], sep, b);
      assert [a[0]] + a[1..] == a;
    }
  }

  /** A leading whitespace character that is not the separator disappears after split and strip. */
  lemma LeadingSpaceVanishes(c: char, x: string, sep: char)
    requires IsSpace(c) && c != sep
    ensures StripAll(Split([c] + x, sep)) == StripAll(Split(x, sep))
  {
    var s := [c] + x;
    assert s[0] == c && s[1..] == x;
    var rest := Split(x, sep);
    assert Split(s, sep) == [[c] + rest[0]] + rest[1..];
    assert ([c] + rest[0])[1..] == rest[0];
    assert LStrip([c] + rest[0]) == LStrip(rest[0]);
    assert rest == [rest[0]] + rest[1..];
  }

  /** Strings that split/strip leaves intact: no separator, no surrounding whitespace. */
  predicate Clean(s: string, sep: char) {
    sep !in s && Strip(s) == s
  }

  /**
   * The storage round trip of a non-empty list: joining with ", " and then
   * splitting on "," and stripping each piece gives the list back.
   */
  lemma JoinSplitRoundTrip(parts: seq<string>)
    requires parts != []
    requires forall i :: 0 <= i < |parts| ==> Clean(parts[i], ',')
    ensures StripAll(Split(Join(parts, ", "), ',')) == parts
  {
    AllCleanFromForall(parts);
    RoundTripInduction(parts);
  }

  /** Every element is `Clean`, stated as a recursion so that it passes to the tail cheaply. */
  predicate AllClean(parts: seq<string>) {
    parts == [] || (Clean(parts[0], ',') && AllClean(parts[1..]))
  }

  lemma {:induction false} AllCleanFromForall(parts: seq<string>)
    requires forall i :: 0 <= i < |parts| ==> Clean(parts[i], ',')
    ensures AllClean(parts)
  {
    if parts != [] {
      assert forall i :: 0 <= i < |parts[1..]| ==> parts[1..][i] == parts[i + 1];
      AllCleanFromForall(parts[1..]);
    }
  }

  lemma {:induction false} RoundTripInduction(parts: seq<string>)
    requires parts != [] && AllClean(parts)
    ensures StripAll(Split(Join(parts, ", "), ',')) == parts
  {
    if |parts| == 1 {
      SplitNoSep(parts[0], ',');
    } else {
      assert parts == [parts[0]] + parts[1..];
      JoinedPieces(parts[0], parts[1..]);
      RoundTripInduction(parts[1..]);
    }
  }

  /** The first part of a join comes back on its own, ahead of the pieces of the rest. */
  lemma JoinedPieces(head: string, tail: seq<string>)
    requires tail != [] && Clean(head, ',')
    ensures StripAll(Split(Join([head] + tail, ", "), ',')) == [head] + StripAll(Split(Join(tail, ", "), ','))
  {
    var j := Join(tail, ", ");
    assert ([head] + tail)[1..] == tail;
    JoinCons([head] + tail, ", ");
    assert Join([head] + tail, ", ") == head + [','] + ([' '] + j);
    SplitAtSep(head, ',', [' '] + j);
    StripAllCons(head, Split([' '] + j, ','));
    LeadingSpaceVanishes(' ', j, ',');
  }

  lemma JoinCons(parts: seq<string>, sep: string)
    requires |parts| >= 2
    ensures Join(parts, sep) == parts[0] + sep + Join(parts[1..], sep)
  {
  }

  lemma StripAllCons(x: string, ys: seq<string>)
    ensures StripAll([x] + ys) == [Strip(x)] + StripAll(ys)
  {
    assert ([x] + ys)[1..] == ys;
  }

  /** The empty list does not survive: it is stored as "" and read back as [""]. */
  lemma EmptyListDoesNotRoundTrip()
    ensures Join([], ", ") == ""
    ensures StripAll(Split("", ',')) == [""]
  {
    assert Strip("") == "";
  }

  /** Containment is transitive: text containing `mid` contains every piece of `mid`. */
  lemma {:induction false} ContainsTransitive(s: string, mid: string, sub: string)
    requires Contains(s, mid) && Contains(mid, sub)
    ensures Contains(s, sub)
  {
    if mid <= s {
      PrefixContains(s, mid, sub);
    } else {
      ContainsTransitive(s[1..], mid, sub);
    }
  }

  lemma {:induction false} PrefixContains(s: string, mid: string, sub: string)
    requires mid <= s && Contains(mid, sub)
    ensures Contains(s, sub)
  {
    if sub <= mid {
      assert sub <= s;
    } else {
      assert mid != [] && s != [];
      assert mid[1..] <= s[1..];
      PrefixContains(s[1..], mid[1..], sub);
    }
  }
}
