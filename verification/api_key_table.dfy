/**
 * How the key table shows a key (`displayApiKey` in
 * dandi/components/api-keys/ApiKeyTable.tsx): in full when its id is
 * revealed, masked otherwise.
 */
module ApiKeyTable {
  import opened ApiKeyTypes
  import opened Generator
  import opened Masker
  import opened RevealedKeys

  /** The text shown in the key column. */
  function DisplayApiKey(key: ApiKey, revealedKeys: set<string>): (shown: string)
    ensures key.id in revealedKeys || |key.key| <= ShortKeyLength ==> shown == key.key
    ensures key.id !in revealedKeys && |key.key| > ShortKeyLength ==>
      shown == key.key[..PrefixEnd(key.key)] + Mask
  {
    if key.id in revealedKeys then key.key
    else
      var shown := MaskApiKey(key.key);
      shown
  }

  /** A generated key is shown in full when revealed and as its prefix followed by 24 stars otherwise. */
  lemma DisplayOfGeneratedKey(key: ApiKey, revealedKeys: set<string>, picks: seq<int>)
    requires ValidPicks(picks) && key.key == GeneratedKey(key.keyType, picks)
    ensures key.id in revealedKeys ==> DisplayApiKey(key, revealedKeys) == key.key
    ensures key.id !in revealedKeys ==> DisplayApiKey(key, revealedKeys) == Prefix(key.keyType) + Mask
  {
    if key.id !in revealedKeys {
      MaskGeneratedKey(key.keyType, picks);
    }
  }

  /** Toggling a key switches its display between the full key and the masked key, and leaves every other key's display alone. */
  lemma ToggleSwitchesDisplay(key: ApiKey, other: ApiKey, revealedKeys: set<string>)
    requires other.id != key.id
    ensures DisplayApiKey(key, Toggled(revealedKeys, key.id)) ==
      (if key.id in revealedKeys then MaskApiKey(key.key) else key.key)
    ensures DisplayApiKey(other, Toggled(revealedKeys, key.id)) == DisplayApiKey(other, revealedKeys)
  {
  }

  /** Masking what a hidden key displays changes nothing: the display of a hidden key is already fully masked. */
  lemma HiddenDisplayIsMasked(key: ApiKey, revealedKeys: set<string>)
    requires key.id !in revealedKeys
    ensures MaskApiKey(DisplayApiKey(key, revealedKeys)) == DisplayApiKey(key, revealedKeys)
  {
    MaskIdempotent(key.key);
  }
}
