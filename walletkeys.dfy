/**
 * Extraction of private keys from the wallet file:
 * `content.match(/Private Key: (0x[a-fA-F0-9]{64})/g)?.map(match => match.split(': ')[1]) || []`.
 * A global match scans left to right, resumes after each match, and the key is the matched text
 * after the label.
 */
module WalletKeys {

  /** The label the pattern starts with. */
  const Label: string := "Private Key: "

  /** Length of a whole match: the label, `0x` and 64 hex digits. */
  const MatchLength: nat := 79

  predicate IsHexDigit(c: char) {
    ('0' <= c <= '9') || ('a' <= c <= 'f') || ('A' <= c <= 'F')
  }

  /** `0x` followed by exactly 64 hex digits. */
  predicate IsPrivateKey(k: string) {
    |k| == 66 && k[0] == '0' && k[1] == 'x' && forall i :: 2 <= i < 66 ==> IsHexDigit(k[i])
  }

  /** The pattern matches at the start of `s`. */
  predicate MatchesHere(s: string) {
    |s| >= MatchLength && s[..13] == Label && IsPrivateKey(s[13..MatchLength])
  }

  /** The keys found by the global match, in order of appearance. */
  function ScanKeys(s: string): seq<string>
    decreases |s|
  {
    if |s| < MatchLength then []
    else if MatchesHere(s) then [s[13..MatchLength]] + ScanKeys(s[MatchLength..])
    else ScanKeys(s[1..])
  }

  predicate AllKeys(keys: seq<string>) {
    forall i :: 0 <= i < |keys| ==> IsPrivateKey(keys[i])
  }

  /** Every extracted key is `0x` and 64 hex digits, and there are at most |s| / 79 of them. */
  lemma {:induction false} ScanKeysSound(s: string)
    ensures AllKeys(ScanKeys(s))
    ensures |ScanKeys(s)| * MatchLength <= |s|
    decreases |s|
  {
    if |s| >= MatchLength {
      if MatchesHere(s) {
        ScanKeysSound(s[MatchLength..]);
        var rest := ScanKeys(s[MatchLength..]);
        forall i | 0 <= i < |rest| + 1 ensures IsPrivateKey(([s[13..MatchLength]] + rest)[i]) {
          if i > 0 { assert ([s[13..MatchLength]] + rest)[i] == rest[i - 1]; }
        }
      } else {
        ScanKeysSound(s[1..]);
      }
    }
  }

  /** A wallet file as a generator writes it: one `Private Key: <key>` line per wallet. */
  function KeyFile(keys: seq<string>): string
    decreases |keys|
  {
    if keys == [] then [] else Label + keys[0] + "\n" + KeyFile(keys[1..])
  }

  /** A line break before the rest of the file changes nothing: it cannot start a match. */
  lemma SkipNewline(rest: string)
    ensures ScanKeys("\n" + rest) == ScanKeys(rest)
  {
    var s := "\n" + rest;
    assert s[1..] == rest;
    if |s| >= MatchLength {
      assert s[..13][0] == '\n';
    }
  }

  /** Scanning a file of `Private Key: <key>` lines finds exactly those keys, in order. */
  lemma {:induction false} ScanKeyFile(keys: seq<string>)
    requires AllKeys(keys)
    ensures ScanKeys(KeyFile(keys)) == keys
    decreases |keys|
  {
    if keys != [] {
      var k, rest := keys[0], KeyFile(keys[1..]);
      var s := Label + k + "\n" + rest;
      assert IsPrivateKey(k);
      assert s[..13] == Label;
      assert s[13..MatchLength] == k;
      assert MatchesHere(s);
      assert s[MatchLength..] == "\n" + rest;
      SkipNewline(rest);
      ScanKeyFile(keys[1..]);
      assert keys == [k] + keys[1..];
    }
  }
}
