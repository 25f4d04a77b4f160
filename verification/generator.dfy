/**
 * The API-key generator (utils/api-key-generator.ts). The 24 draws of
 * `Math.floor(Math.random() * chars.length)` are an input: `picks`.
 */
module Generator {
  import opened ApiKeyTypes

  /** The 62 characters a key's random part is drawn from (one literal in the source, split here in three). */
  const Alphabet: string := "ABCDEFGHIJKLMNOPQRSTUVWXYZ" + "abcdefghijklmnopqrstuvwxyz" + "0123456789"

  predicate IsAlphanumeric(c: char) {
    'A' <= c <= 'Z' || 'a' <= c <= 'z' || '0' <= c <= '9'
  }

  /** How many random characters follow the prefix. */
  const RandomLength: nat := 24

  /** The type-selected prefix: `prod` keys start "dandi-prod-", every other type "dandi-dev-". */
  function Prefix(keyType: ApiKeyType): string {
    if keyType == Prod then "dandi-prod-" else "dandi-dev-"
  }

  /** Draws of `Math.floor(Math.random() * 62)`: one per iteration, each an index into `Alphabet`. */
  predicate ValidPicks(picks: seq<int>) {
    |picks| == RandomLength && forall i | 0 <= i < |picks| :: 0 <= picks[i] < |Alphabet|
  }

  /** The random part a sequence of draws selects. */
  function RandomPart(picks: seq<int>): string
    requires ValidPicks(picks)
  {
    seq(|picks|, i requires 0 <= i < |picks| => Alphabet[picks[i]])
  }

  /** The key `generateApiKey` returns for a type and a sequence of draws. */
  function GeneratedKey(keyType: ApiKeyType, picks: seq<int>): string
    requires ValidPicks(picks)
  {
    Prefix(keyType) + RandomPart(picks)
  }

  /** `generateApiKey`: the prefix, then 24 characters appended one per iteration. */
  method GenerateApiKey(keyType: ApiKeyType, picks: seq<int>) returns (key: string)
    requires ValidPicks(picks)
    ensures key == GeneratedKey(keyType, picks)
  {
    var prefix := if keyType == Prod then "dandi-prod-" else "dandi-dev-";
    var chars := Alphabet;
    var random := "";
    for i := 0 to RandomLength
      invariant |random| == i
      invariant forall k | 0 <= k < i :: random[k] == chars[picks[k]]
    {
      random := random + [chars[picks[i]]];
    }
    key := prefix + random;
  }

  /** The alphabet has 62 characters, every one a letter or a digit (so none is a hyphen). */
  lemma AlphabetIsAlphanumeric()
    ensures |Alphabet| == 62
    ensures forall k | 0 <= k < |Alphabet| :: IsAlphanumeric(Alphabet[k])
    ensures '-' !in Alphabet
  {
    var upper, lower, digits := "ABCDEFGHIJKLMNOPQRSTUVWXYZ", "abcdefghijklmnopqrstuvwxyz", "0123456789";
    assert forall k | 0 <= k < |upper| :: IsAlphanumeric(upper[k]);
    assert forall k | 0 <= k < |lower| :: IsAlphanumeric(lower[k]);
    assert forall k | 0 <= k < |digits| :: IsAlphanumeric(digits[k]);
    assert Alphabet == upper + lower + digits;
  }

  /**
   * A generated key starts with its type's prefix, is 34 (dev) or 35 (prod)
   * characters long, and every character after the prefix is one of the 62 letters and digits;
   * dropping the prefix gives back the random part.
   */
  lemma GeneratedKeyShape(keyType: ApiKeyType, picks: seq<int>)
    requires ValidPicks(picks)
    ensures var key := GeneratedKey(keyType, picks);
      && key[..|Prefix(keyType)|] == Prefix(keyType)
      && |key| == (if keyType == Prod then 35 else 34)
      && |key| == |Prefix(keyType)| + RandomLength
      && key[|Prefix(keyType)|..] == RandomPart(picks)
      && forall k | |Prefix(keyType)| <= k < |key| :: key[k] in Alphabet && IsAlphanumeric(key[k])
  {
    AlphabetIsAlphanumeric();
    var key := GeneratedKey(keyType, picks);
    forall k | |Prefix(keyType)| <= k < |key| ensures key[k] in Alphabet && IsAlphanumeric(key[k]) {
      assert key[k] == Alphabet[picks[k - |Prefix(keyType)|]];
    }
  }

  /** Dev and prod keys never coincide: the type can be read back from the key. */
  lemma KeyTypeIsVisible(picks1: seq<int>, picks2: seq<int>)
    requires ValidPicks(picks1) && ValidPicks(picks2)
    ensures GeneratedKey(Dev, picks1) != GeneratedKey(Prod, picks2)
  {
    assert GeneratedKey(Dev, picks1)[6] == 'd';
    assert GeneratedKey(Prod, picks2)[6] == 'p';
  }
}
