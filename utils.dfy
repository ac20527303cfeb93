/** `truncate` (frontend-leptos/src/utils/mod.rs). Text is ASCII, so a byte
    length is a character count and every index is a character boundary. */
module Utils {

  function Truncate(text: string, maxLen: nat): (r: string)
    ensures |text| <= maxLen ==> r == text
    ensures |text| > maxLen ==> |r| == maxLen + 3 && r[..maxLen] == text[..maxLen] && r[maxLen..] == "..."
    ensures |r| <= maxLen + 3
  {
    if |text| <= maxLen then text else text[..maxLen] + "..."
  }

  /** The result starts with the first min(len, maxLen) characters of the
      text, and keeps at most maxLen of them. */
  lemma TruncateKeepsPrefix(text: string, maxLen: nat)
    ensures var n := if |text| <= maxLen then |text| else maxLen;
      n <= |Truncate(text, maxLen)| && Truncate(text, maxLen)[..n] == text[..n]
  {
  }

  /** Truncating twice with the same bound is truncating once. */
  lemma TruncateIdempotent(text: string, maxLen: nat)
    ensures Truncate(Truncate(text, maxLen), maxLen) == Truncate(text, maxLen)
  {
    var r := Truncate(text, maxLen);
    if |text| > maxLen {
      assert r[..maxLen] == text[..maxLen];
    }
  }
}
