/**
 * String helpers the handlers rely on: Go's `strings.ToUpper` (ASCII part),
 * `strings.HasPrefix`, `strings.Split` with a one-character separator and
 * `strings.Join`. Go strings are byte strings; here one `char` stands for one byte.
 */
module Text {

  datatype Option<T> = None | Some(value: T)

  predicate IsAsciiLower(c: char) {
    'a' <= c <= 'z'
  }

  /** Upper-cases one character; characters other than `a`..`z` are kept. */
  function UpperChar(c: char): (u: char)
    ensures !IsAsciiLower(u)
    ensures IsAsciiLower(c) ==> u as int == c as int - 32
    ensures !IsAsciiLower(c) ==> u == c
  {
    if IsAsciiLower(c) then (c as int - 32) as char else c
  }

  /** `strings.ToUpper`, restricted to the ASCII letters. */
  function ToUpper(s: string): (u: string)
    ensures |u| == |s|
    ensures forall i :: 0 <= i < |s| ==> u[i] == UpperChar(s[i])
  {
    seq(|s|, i requires 0 <= i < |s| => UpperChar(s[i]))
  }

  /** No lower-case ASCII letter is left, and upper-casing twice changes nothing. */
  lemma ToUpperIdempotent(s: string)
    ensures ToUpper(ToUpper(s)) == ToUpper(s)
    ensures forall i :: 0 <= i < |s| ==> !IsAsciiLower(ToUpper(s)[i])
  {
  }

  lemma ToUpperKeepsUpper(s: string)
    requires forall i :: 0 <= i < |s| ==> !IsAsciiLower(s[i])
    ensures ToUpper(s) == s
  {
  }

  predicate HasPrefix(s: string, p: string) {
    |p| <= |s| && s[..|p|] == p
  }

  /**
   * `strings.Split(s, string(sep))`: the pieces between occurrences of `sep`.
   * There is always at least one piece, and no piece contains `sep`.
   */
  function Split(s: string, sep: char): (parts: seq<string>)
    ensures |parts| >= 1
    ensures forall k :: 0 <= k < |parts| ==> sep !in parts[k]
    decreases |s|
  {
    if |s| == 0 then [""]
    else if s[0] == sep then [""] + Split(s[1..], sep)
    else
      var rest := Split(s[1..], sep);
      [[s[0]] + rest[0]] + rest[1..]
  }

  /** `strings.Join(parts, sep)`. */
  function Join(parts: seq<string>, sep: string): string
    decreases |parts|
  {
    if |parts| == 0 then ""
    else if |parts| == 1 then parts[0]
    else parts[0] + sep + Join(parts[1..], sep)
  }

  function Count(s: string, c: char): nat
    decreases |s|
  {
    if |s| == 0 then 0 else (if s[0] == c then 1 else 0) + Count(s[1..], c)
  }

  /** Splitting and re-joining with the same separator gives the string back. */
  lemma {:induction false} JoinSplit(s: string, sep: char)
    ensures Join(Split(s, sep), [sep]) == s
    decreases |s|
  {
    if |s| == 0 {
    } else if s[0] == sep {
      JoinSplit(s[1..], sep);
      assert s == [sep] + s[1..];
    } else {
      JoinSplit(s[1..], sep);
      var rest := Split(s[1..], sep);
      if |rest| == 1 {
        assert s == [s[0]] + s[1..];
      } else {
        assert Join(rest, [sep]) == rest[0] + [sep] + Join(rest[1..], [sep]);
        assert s == [s[0]] + s[1..];
      }
    }
  }

  /** There is one piece more than there are separators. */
  lemma {:induction false} SplitCount(s: string, sep: char)
    ensures |Split(s, sep)| == Count(s, sep) + 1
    decreases |s|
  {
    if |s| > 0 {
      SplitCount(s[1..], sep);
    }
  }

  /** Prefixing a character to the first piece commutes with appending more pieces. */
  lemma GlueFirst(c: char, ra: seq<string>, rb: seq<string>)
    requires |ra| >= 1
    ensures [[c] + (ra + rb)[0]] + (ra + rb)[1..] == [[c] + ra[0]] + ra[1..] + rb
  {
    assert (ra + rb)[0] == ra[0];
    assert (ra + rb)[1..] == ra[1..] + rb;
  }

  /** Splitting at one separator splits each side independently. */
  lemma {:induction false} SplitAround(a: string, sep: char, b: string)
    ensures Split(a + [sep] + b, sep) == Split(a, sep) + Split(b, sep)
    decreases |a|
  {
    var s := a + [sep] + b;
    if |a| == 0 {
      assert s == [sep] + b;
      assert s[1..] == b;
    } else {
      assert s[0] == a[0];
      assert s[1..] == a[1..] + [sep] + b;
      SplitAround(a[1..], sep, b);
      var ra, rb := Split(a[1..], sep), Split(b, sep);
      if a[0] == sep {
        assert Split(s, sep) == [""] + (ra + rb);
        assert Split(a, sep) == [""] + ra;
      } else {
        GlueFirst(a[0], ra, rb);
      }
    }
  }

  /** A string without the separator is one piece. */
  lemma {:induction false} SplitNoSep(s: string, sep: char)
    requires sep !in s
    ensures Split(s, sep) == [s]
    decreases |s|
  {
    if |s| > 0 {
      assert s[0] != sep;
      assert sep !in s[1..] by {
        forall k | 0 <= k < |s[1..]| ensures s[1..][k] != sep {
          assert s[1..][k] == s[k + 1];
        }
      }
      SplitNoSep(s[1..], sep);
      assert s == [s[0]] + s[1..];
    }
  }

  function OrEmpty<T>(o: Option<seq<T>>): seq<T> {
    if o.Some? then o.value else []
  }

  predicate NoDup<T(==)>(s: seq<T>) {
    forall i, j :: 0 <= i < j < |s| ==> s[i] != s[j]
  }

  /** Position of the first occurrence of `x` in `s`. */
  function FirstIndex<T(==)>(s: seq<T>, x: T): (k: nat)
    requires x in s
    ensures k < |s| && s[k] == x && x !in s[..k]
  {
    if s[0] == x then 0
    else
      var k := FirstIndex(s[1..], x);
      assert s[..k + 1] == [s[0]] + s[1..][..k];
      k + 1
  }

  lemma FirstIndexUnique<T>(s: seq<T>, x: T, k: nat)
    requires k < |s| && s[k] == x && x !in s[..k]
    ensures FirstIndex(s, x) == k
  {
  }

  lemma FirstIndexAppend<T>(s: seq<T>, x: T, y: T)
    requires y in s
    ensures FirstIndex(s + [x], y) == FirstIndex(s, y)
  {
    var k := FirstIndex(s, y);
    assert (s + [x])[..k] == s[..k];
    FirstIndexUnique(s + [x], y, k);
  }

  /** The keys of the records of `s`, under the projection `key`. */
  function KeySet<T(==)>(s: seq<T>, key: T -> string): set<string> {
    set x | x in s :: key(x)
  }

  /** No two records of `s` carry the same key. */
  predicate UniqueKeys<T>(s: seq<T>, key: T -> string) {
    forall i, j :: 0 <= i < j < |s| ==> key(s[i]) != key(s[j])
  }

  /** Position of the first record of `s` whose key is `id`: the one a `Limit(1)` query on that key returns. */
  function FirstKeyed<T(==)>(s: seq<T>, key: T -> string, id: string): (k: nat)
    requires id in KeySet(s, key)
    ensures k < |s| && key(s[k]) == id
    ensures forall j :: 0 <= j < k ==> key(s[j]) != id
  {
    if key(s[0]) == id then 0
    else
      assert id in KeySet(s[1..], key) by {
        var x :| x in s && key(x) == id;
        var i :| 0 <= i < |s| && s[i] == x;
        assert i != 0 && s[1..][i - 1] == x;
      }
      1 + FirstKeyed(s[1..], key, id)
  }

  /** The elements of `d` occur in `s`, in the order of their first occurrences there. */
  predicate InFirstOccurrenceOrder<T(==)>(d: seq<T>, s: seq<T>) {
    && (forall i :: 0 <= i < |d| ==> d[i] in s)
    && (forall i, j :: 0 <= i < j < |d| ==> d[i] in s && d[j] in s && FirstIndex(s, d[i]) < FirstIndex(s, d[j]))
  }

  lemma OrderedNoDup<T>(d: seq<T>, s: seq<T>)
    requires InFirstOccurrenceOrder(d, s)
    ensures NoDup(d)
  {
  }

  /** Putting an element that occurs earlier in `s` than all of `tail` in front keeps the order. */
  lemma OrderCons<T>(head: seq<T>, tail: seq<T>, s: seq<T>, k: nat)
    requires |head| <= 1
    requires forall x :: x in head ==> x in s && FirstIndex(s, x) == k
    requires forall x :: x in tail ==> x in s && k < FirstIndex(s, x)
    requires InFirstOccurrenceOrder(tail, s)
    ensures InFirstOccurrenceOrder(head + tail, s)
  {
    var m := head + tail;
    forall i, j | 0 <= i < j < |m|
      ensures m[i] in s && m[j] in s && FirstIndex(s, m[i]) < FirstIndex(s, m[j])
    {
      assert m[j] == tail[j - |head|] && m[j] in tail;
      if i < |head| {
        assert m[i] == head[i] && m[i] in head;
      } else {
        assert m[i] == tail[i - |head|];
      }
    }
    assert InFirstOccurrenceOrder(m, s);
  }

  /** Appending an element that occurs in `s` after all of `d` keeps the order. */
  lemma OrderSnoc<T>(d: seq<T>, x: T, s: seq<T>)
    requires InFirstOccurrenceOrder(d, s)
    requires x in s
    requires forall y :: y in d ==> y in s && FirstIndex(s, y) < FirstIndex(s, x)
    ensures InFirstOccurrenceOrder(d + [x], s)
  {
    var m := d + [x];
    forall i, j | 0 <= i < j < |m|
      ensures m[i] in s && m[j] in s && FirstIndex(s, m[i]) < FirstIndex(s, m[j])
    {
      assert m[i] == d[i] && d[i] in d;
      if j < |d| {
        assert m[j] == d[j];
      }
    }
    assert InFirstOccurrenceOrder(m, s);
  }

  /** Drop repeated elements, keeping each one where it first occurs. */
  function Dedup<T(==)>(s: seq<T>): seq<T>
    decreases |s|
  {
    if |s| == 0 then []
    else
      var d := Dedup(s[..|s| - 1]);
      if s[|s| - 1] in d then d else d + [s[|s| - 1]]
  }

  /** `Dedup` keeps exactly the elements of `s`. */
  lemma {:induction false} DedupMembers<T>(s: seq<T>)
    ensures forall x :: x in Dedup(s) <==> x in s
    decreases |s|
  {
    if |s| > 0 {
      var init, x := s[..|s| - 1], s[|s| - 1];
      assert s == init + [x];
      DedupMembers(init);
    }
  }

  lemma DedupElem<T>(s: seq<T>, i: nat)
    requires i < |Dedup(s)|
    ensures Dedup(s)[i] in s
  {
    DedupMembers(s);
    var y := Dedup(s)[i];
    assert y in Dedup(s);
  }

  /** `Dedup` keeps each element once, in first-occurrence order. */
  lemma {:induction false} DedupSpec<T>(s: seq<T>)
    ensures forall x :: x in Dedup(s) <==> x in s
    ensures InFirstOccurrenceOrder(Dedup(s), s)
    ensures NoDup(Dedup(s))
    decreases |s|
  {
    DedupMembers(s);
    if |s| > 0 {
      var init, last := s[..|s| - 1], s[|s| - 1];
      assert s == init + [last];
      DedupSpec(init);
      DedupMembers(init);
      var d := Dedup(init);
      var r := Dedup(s);
      if last !in d {
        assert s[..|init|] == init;
        FirstIndexUnique(s, last, |init|);
        assert r == d + [last];
      } else {
        assert r == d;
      }
      forall i, j | 0 <= i < j < |r|
        ensures r[i] in s && r[j] in s && FirstIndex(s, r[i]) < FirstIndex(s, r[j])
      {
        DedupElem(init, i);
        FirstIndexAppend(init, last, r[i]);
        if j < |d| {
          DedupElem(init, j);
          FirstIndexAppend(init, last, r[j]);
        } else {
          assert r[j] == last;
        }
      }
      assert InFirstOccurrenceOrder(r, s);
      OrderedNoDup(r, s);
    }
  }

  /** Characters `url.QueryEscape` leaves as they are. */
  predicate IsUnreserved(c: char) {
    'A' <= c <= 'Z' || 'a' <= c <= 'z' || '0' <= c <= '9' || c == '-' || c == '_' || c == '.' || c == '~'
  }

  const HexDigits: string := "0123456789ABCDEF"

  /** How `url.QueryEscape` writes one byte: kept, `+` for a space, or `%XX` in upper-case hex. */
  function EscapeByte(c: char): (e: string)
    ensures IsUnreserved(c) ==> e == [c]
    ensures c == ' ' ==> e == "+"
    ensures !IsUnreserved(c) && c != ' ' ==> |e| == 3 && e[0] == '%' && e[1] in HexDigits && e[2] in HexDigits
  {
    if IsUnreserved(c) then [c]
    else if c == ' ' then "+"
    else ['%', HexDigits[(c as int / 16) % 16], HexDigits[c as int % 16]]
  }

  /** `url.QueryEscape(s)`. */
  function QueryEscape(s: string): string
    decreases |s|
  {
    if |s| == 0 then "" else EscapeByte(s[0]) + QueryEscape(s[1..])
  }

  predicate IsEscapedChar(c: char) {
    IsUnreserved(c) || c == '+' || c == '%'
  }

  /**
   * An escaped query component holds only unreserved characters, `+` and `%`
   * (so no `/`, `?`, `&` or `#` of the input survives), and a string of
   * unreserved characters is its own escape.
   */
  lemma {:induction false} QueryEscapeSafe(s: string)
    ensures forall k :: 0 <= k < |QueryEscape(s)| ==> IsEscapedChar(QueryEscape(s)[k])
    ensures (forall k :: 0 <= k < |s| ==> IsUnreserved(s[k])) ==> QueryEscape(s) == s
    decreases |s|
  {
    if |s| > 0 {
      QueryEscapeSafe(s[1..]);
      var e, rest := EscapeByte(s[0]), QueryEscape(s[1..]);
      forall k | 0 <= k < |e + rest| ensures IsEscapedChar((e + rest)[k]) {
        if k < |e| {
          assert forall h :: h in HexDigits ==> IsUnreserved(h);
        } else {
          assert (e + rest)[k] == rest[k - |e|];
        }
      }
      if forall k :: 0 <= k < |s| ==> IsUnreserved(s[k]) {
        assert forall k :: 0 <= k < |s[1..]| ==> IsUnreserved(s[1..][k]) by {
          forall k | 0 <= k < |s[1..]| ensures IsUnreserved(s[1..][k]) {
            assert s[1..][k] == s[k + 1];
          }
        }
        assert s == [s[0]] + s[1..];
      }
    }
  }
}
