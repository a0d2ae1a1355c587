/**
 * The identifier generator: `GenerateUID(n)` fills an `n`-long rune buffer with
 * characters of a fixed 62-character alphabet, one random draw per position.
 * The random source becomes a sequence of drawn indices; the type of a drawn
 * index is the range `rand.Intn(len(Runes))` promises.
 */
module Idgen {

  /** The alphabet `Runes`: the upper-case letters, the lower-case letters and the digits, in that order. */
  const Runes: string := Upper + Lower + Digits

  /** A value `rand.Intn(len(Runes))` can return. */
  type RuneIndex = i: int | 0 <= i < 62

  predicate IsAlphanumeric(c: char) {
    'A' <= c <= 'Z' || 'a' <= c <= 'z' || '0' <= c <= '9'
  }

  /** The character at position `i` of `Runes`, computed from its block. */
  function RuneAt(i: RuneIndex): (c: char)
    ensures IsAlphanumeric(c)
  {
    if i < 26 then ('A' as int + i) as char
    else if i < 52 then ('a' as int + (i - 26)) as char
    else ('0' as int + (i - 52)) as char
  }

  /** `Runes` is exactly A-Z, then a-z, then 0-9. */
  lemma RunesBlocks()
    ensures |Runes| == 62
    ensures forall i: RuneIndex :: Runes[i] == RuneAt(i)
  {
    forall i: RuneIndex ensures Runes[i] == RuneAt(i) {
      RunesAt(i);
    }
  }

  lemma RunesAt(i: RuneIndex)
    ensures Runes[i] == RuneAt(i)
  {
    if i < 26 {
      UpperAt(i);
    } else if i < 52 {
      LowerAt(i - 26);
    } else {
      DigitAt(i - 52);
    }
  }

  const Upper: string := "ABCDEFGHIJKLMNOPQRSTUVWXYZ"
  const Lower: string := "abcdefghijklmnopqrstuvwxyz"
  const Digits: string := "0123456789"

  lemma UpperAt(i: int)
    requires 0 <= i < 26
    ensures Upper[i] == ('A' as int + i) as char
  {
  }

  lemma LowerAt(i: int)
    requires 0 <= i < 26
    ensures Lower[i] == ('a' as int + i) as char
  {
  }

  lemma DigitAt(i: int)
    requires 0 <= i < 10
    ensures Digits[i] == ('0' as int + i) as char
  {
  }

  /** `Runes` holds 62 distinct characters, and they are exactly the ASCII alphanumerics. */
  lemma RunesAlphabet()
    ensures |Runes| == 62
    ensures forall i, j :: 0 <= i < j < |Runes| ==> Runes[i] != Runes[j]
    ensures forall c :: c in Runes <==> IsAlphanumeric(c)
  {
    RunesBlocks();
    forall i, j | 0 <= i < j < |Runes| ensures Runes[i] != Runes[j] {
      assert Runes[i] == RuneAt(i) && Runes[j] == RuneAt(j);
    }
    forall c ensures c in Runes <==> IsAlphanumeric(c) {
      if IsAlphanumeric(c) {
        var i: RuneIndex :=
          if 'A' <= c <= 'Z' then c as int - 'A' as int
          else if 'a' <= c <= 'z' then c as int - 'a' as int + 26
          else c as int - '0' as int + 52;
        assert Runes[i] == RuneAt(i) == c;
      }
      if c in Runes {
        var i :| 0 <= i < |Runes| && Runes[i] == c;
        assert RuneAt(i) == c;
      }
    }
  }

  /** The identifier that a given sequence of draws produces. */
  function UidOf(draws: seq<RuneIndex>): (id: string)
    ensures |id| == |draws|
  {
    seq(|draws|, i requires 0 <= i < |draws| => Runes[draws[i]])
  }

  /** Every character of a generated identifier is alphanumeric. */
  lemma UidAlphanumeric(draws: seq<RuneIndex>)
    ensures forall k :: 0 <= k < |UidOf(draws)| ==> IsAlphanumeric(UidOf(draws)[k])
  {
    RunesBlocks();
  }

  /**
   * `GenerateUID(n)`: a buffer of `n` runes, position `i` filled with the rune
   * at the `i`-th draw. Only the first `n` draws are consumed.
   */
  method GenerateUid(n: nat, draws: seq<RuneIndex>) returns (id: string)
    requires n <= |draws|
    ensures |id| == n
    ensures forall i :: 0 <= i < n ==> id[i] == Runes[draws[i]] && id[i] in Runes
    ensures id == UidOf(draws[..n])
  {
    var b := new char[n];
    for i := 0 to n
      invariant forall k :: 0 <= k < i ==> b[k] == Runes[draws[k]]
    {
      b[i] := Runes[draws[i]];
    }
    id := b[..];
  }
}
