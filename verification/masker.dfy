/** The API-key masker (dandi/utils/api-key-masker.ts). */
module Masker {
  import opened JsStrings
  import opened ApiKeyTypes
  import Generator

  /** The fixed run of mask characters that replaces the secret part. */
  const Mask: string := "************************"

  /** Keys this short are shown as they are. */
  const ShortKeyLength: int := 12

  /** Number of hyphens in a string. */
  function Hyphens(s: string): nat {
    multiset(s)['-']
  }

  /**
   * `key.indexOf("-", key.indexOf("-") + 1) + 1`: one past the second hyphen,
   * or 0 when there is no second hyphen (`indexOf` returns -1).
   */
  function PrefixEnd(key: string): (p: nat)
    ensures p <= |key|
    ensures p == 0 || key[p - 1] == '-'
  {
    IndexOf(key, '-', IndexOf(key, '-', 0) + 1) + 1
  }

  /** `maskApiKey`: short keys unchanged, otherwise the kept prefix followed by 24 mask characters. */
  function MaskApiKey(key: string): (r: string)
    ensures |key| <= ShortKeyLength ==> r == key
    ensures |key| > ShortKeyLength ==>
      && |r| == PrefixEnd(key) + |Mask|
      && r[..PrefixEnd(key)] == key[..PrefixEnd(key)]
      && forall k | PrefixEnd(key) <= k < |r| :: r[k] == '*'
  {
    if |key| <= ShortKeyLength then key
    else key[..PrefixEnd(key)] + Mask
  }

  lemma MaskIsStars()
    ensures |Mask| == 24
    ensures forall k | 0 <= k < |Mask| :: Mask[k] == '*'
  {
  }

  /** Two distinct positions holding `c` make `c` occur at least twice. */
  lemma TwoOccurrences(s: string, c: char, i: nat, j: nat)
    requires i < j < |s| && s[i] == c && s[j] == c
    ensures multiset(s)[c] >= 2
  {
    assert s == s[..j] + s[j..];
    assert s[..j][i] == c;
    assert s[j..][0] == c;
    assert c in multiset(s[..j]) && c in multiset(s[j..]);
  }

  /** The only occurrence of `c` at position `i` makes the count exactly one. */
  lemma OneOccurrence(s: string, c: char, i: nat)
    requires i < |s| && s[i] == c
    requires forall k | 0 <= k < |s| && k != i :: s[k] != c
    ensures multiset(s)[c] == 1
  {
    assert s == s[..i] + [s[i]] + s[i + 1..];
    assert c !in s[..i];
    assert c !in s[i + 1..];
  }

  /**
   * With at least two hyphens, the first at `i` and the second at `j`, the
   * mask keeps the key up to and including the second hyphen and nothing
   * after it: "dandi-dev-..." becomes "dandi-dev-" and 24 mask characters.
   */
  lemma MaskKeepsUpToSecondHyphen(key: string, i: nat, j: nat)
    requires |key| > ShortKeyLength
    requires i < j < |key| && key[i] == '-' && key[j] == '-'
    requires forall k | 0 <= k < j && k != i :: key[k] != '-'
    ensures PrefixEnd(key) == j + 1
    ensures MaskApiKey(key) == key[..j + 1] + Mask
  {
    IndexOfFinds(key, '-', 0, i);
    IndexOfFinds(key, '-', i + 1, j);
  }

  /** With fewer than two hyphens, a key longer than 12 is shown as exactly 24 mask characters. */
  lemma MaskWithoutTwoHyphens(key: string)
    requires |key| > ShortKeyLength && Hyphens(key) < 2
    ensures PrefixEnd(key) == 0
    ensures MaskApiKey(key) == Mask
  {
    var first := IndexOf(key, '-', 0);
    if first != -1 {
      var second := IndexOf(key, '-', first + 1);
      if second != -1 {
        TwoOccurrences(key, '-', first, second);
      }
    }
  }

  /** When the prefix is kept, the key has a first hyphen before the second one that ends the prefix. */
  lemma FirstHyphen(key: string) returns (i: nat)
    requires PrefixEnd(key) > 0
    ensures i < PrefixEnd(key) - 1 && key[i] == '-'
    ensures forall k | 0 <= k < PrefixEnd(key) - 1 && k != i :: key[k] != '-'
  {
    i := IndexOf(key, '-', 0);
  }

  /** When no prefix is kept, the key has fewer than two hyphens. */
  lemma NoPrefixFewerThanTwoHyphens(key: string)
    requires PrefixEnd(key) == 0
    ensures Hyphens(key) < 2
  {
    var first := IndexOf(key, '-', 0);
    if first == -1 {
      assert '-' !in key;
    } else {
      OneOccurrence(key, '-', first);
    }
  }

  /** For a key longer than 12, the output is nothing but mask characters exactly when the key has fewer than two hyphens. */
  lemma MaskHidesAllIffFewerThanTwoHyphens(key: string)
    requires |key| > ShortKeyLength
    ensures MaskApiKey(key) == Mask <==> Hyphens(key) < 2
  {
    if PrefixEnd(key) == 0 {
      NoPrefixFewerThanTwoHyphens(key);
      MaskWithoutTwoHyphens(key);
    } else {
      assert |MaskApiKey(key)| != |Mask|;
      if Hyphens(key) < 2 {
        MaskWithoutTwoHyphens(key);
      }
    }
  }

  /** The mask itself has no hyphen, so masking it again leaves it as it is. */
  lemma MaskOfMask()
    ensures MaskApiKey(Mask) == Mask
  {
    MaskIsStars();
    assert '-' !in Mask;
    MaskWithoutTwoHyphens(Mask);
  }

  /** Masking a key whose kept prefix is followed by the mask keeps the same prefix. */
  lemma MaskOfKeptPrefix(key: string)
    requires |key| > ShortKeyLength && PrefixEnd(key) > 0
    ensures MaskApiKey(key[..PrefixEnd(key)] + Mask) == key[..PrefixEnd(key)] + Mask
  {
    var p := PrefixEnd(key);
    var r := key[..p] + Mask;
    var i := FirstHyphen(key);
    assert r[i] == key[i] && r[p - 1] == key[p - 1];
    forall k | 0 <= k < p - 1 && k != i ensures r[k] != '-' {
      assert r[k] == key[k];
    }
    MaskKeepsUpToSecondHyphen(r, i, p - 1);
    assert r[..p] == key[..p];
  }

  /** Masking a masked key changes nothing. */
  lemma MaskIdempotent(key: string)
    ensures MaskApiKey(MaskApiKey(key)) == MaskApiKey(key)
  {
    if |key| > ShortKeyLength {
      if PrefixEnd(key) == 0 {
        assert MaskApiKey(key) == Mask;
        MaskOfMask();
      } else {
        MaskOfKeptPrefix(key);
      }
    }
  }

  /** A generated key is shown as its type's prefix followed by the mask, whatever was drawn. */
  lemma MaskGeneratedKey(keyType: ApiKeyType, picks: seq<int>)
    requires Generator.ValidPicks(picks)
    ensures MaskApiKey(Generator.GeneratedKey(keyType, picks)) == Generator.Prefix(keyType) + Mask
  {
    var key := Generator.GeneratedKey(keyType, picks);
    Generator.GeneratedKeyShape(keyType, picks);
    if keyType == Prod {
      MaskKeepsUpToSecondHyphen(key, 5, 10);
    } else {
      MaskKeepsUpToSecondHyphen(key, 5, 9);
    }
  }
}
