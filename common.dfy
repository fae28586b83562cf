/** Values shared by the gateway, the sign detector and the front end. */
module Common {

  datatype Option<+T> = None | Some(value: T)

  newtype byte = x: int | 0 <= x < 256

  type Bytes = seq<byte>

  /** A detection confidence as the detector reports it (a float rounded to two
      decimals); the model never computes with it, it only carries it along. */
  datatype Confidence = Confidence(value: real)

  /** One `{label, confidence}` entry of a detections list (`label` is a
      reserved word in Dafny, hence `labelText`). */
  datatype Detection = Detection(labelText: string, confidence: Confidence)

  /** Index of the last occurrence of `c` in `s`, or -1 (JavaScript's
      `lastIndexOf`, Python's `rfind`). */
  function LastIndexOf(s: string, c: char): (r: int)
    ensures -1 <= r < |s|
    ensures r >= 0 ==> s[r] == c
    ensures forall k :: r < k < |s| ==> s[k] != c
  {
    if |s| == 0 then -1
    else if s[|s| - 1] == c then |s| - 1
    else LastIndexOf(s[..|s| - 1], c)
  }

  /** The three facts of LastIndexOf's contract single out one index. */
  lemma LastIndexOfIs(s: string, c: char, i: int)
    requires -1 <= i < |s|
    requires i >= 0 ==> s[i] == c
    requires forall k :: i < k < |s| ==> s[k] != c
    ensures LastIndexOf(s, c) == i
  {
  }

  /** No occurrence of `c` after index `i` means none in the suffix `s[i + 1..]`. */
  lemma AbsentFromSuffix(s: string, c: char, i: int)
    requires -1 <= i < |s|
    requires forall k :: i < k < |s| ==> s[k] != c
    ensures c !in s[i + 1..]
  {
    var t := s[i + 1..];
    forall k | 0 <= k < |t|
      ensures t[k] != c
    {
      assert t[k] == s[i + 1 + k];
    }
  }
}
