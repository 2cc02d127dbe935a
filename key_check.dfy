/** The configuration self-test (`backend/test_config.py`): it rejects a
    missing or placeholder OpenRouter key and otherwise prints the key
    masked. */
module KeyCheck {
  import opened Common

  const Placeholder: string := "your_openrouter_api_key_here"

  datatype CheckOutcome = KeyMissing | KeyIsPlaceholder | KeyAccepted(masked: string) {
    /** What `test_config()` returns. */
    predicate Passed() { KeyAccepted? }
  }

  /** `key[:8] + "..." + key[-4:] if len(key) > 12 else "***"`. */
  function Mask(key: string): (r: string)
    ensures |key| > 12 ==> |r| == 15 && r[..8] == key[..8] && r[8..11] == "..." && r[11..] == key[|key| - 4..]
    ensures |key| <= 12 ==> r == "***"
  {
    if |key| > 12 then key[..8] + "..." + key[|key| - 4..] else "***"
  }

  /** The mask of a long key shows its first eight and last four characters
      only: keys that agree there mask alike, whatever lies between; all short
      keys mask alike. */
  lemma MaskHidesTheRest(k1: string, k2: string)
    ensures |k1| > 12 && |k2| > 12 && k1[..8] == k2[..8] && k1[|k1| - 4..] == k2[|k2| - 4..] ==> Mask(k1) == Mask(k2)
    ensures |k1| <= 12 && |k2| <= 12 ==> Mask(k1) == Mask(k2)
  {
  }

  /** `test_config()`: the missing-key check comes first, then the
      placeholder check; any other key passes and is shown masked. */
  function CheckConfig(key: Option<string>): (r: CheckOutcome)
    ensures r.KeyMissing? <==> !Truthy(key)
    ensures r.KeyIsPlaceholder? <==> key == Some(Placeholder)
    ensures r.Passed() <==> Truthy(key) && key.value != Placeholder
    ensures r.Passed() ==> r.masked == Mask(key.value)
  {
    if !Truthy(key) then KeyMissing
    else if key.value == Placeholder then KeyIsPlaceholder
    else KeyAccepted(Mask(key.value))
  }
}
