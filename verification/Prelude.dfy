/** Shared vocabulary: optional values, results, and the canonical-text check. */
module Prelude {
  datatype Option<+T> = None | Some(value: T)

  datatype Result<+T, +E> = Ok(value: T) | Err(error: E)

  /** The characters that Python's str.strip removes. */
  predicate IsSpace(c: char) {
    var code := c as int;
    || 0x09 <= code <= 0x0d
    || 0x1c <= code <= 0x20
    || code == 0x85
    || code == 0xa0
    || code == 0x1680
    || 0x2000 <= code <= 0x200a
    || code == 0x2028
    || code == 0x2029
    || code == 0x202f
    || code == 0x205f
    || code == 0x3000
  }

  /** Python's str.strip. */
  function Strip(text: string): string {
    if text == "" then ""
    else if IsSpace(text[0]) then Strip(text[1..])
    else if IsSpace(text[|text| - 1]) then Strip(text[..|text| - 1])
    else text
  }

  /** Nonblank text that stripping leaves unchanged. */
  predicate Canonical(text: string) {
    |text| > 0 && !IsSpace(text[0]) && !IsSpace(text[|text| - 1])
  }

  /** Stripping removes whitespace from both ends and nothing else. */
  lemma {:induction false} StripRemovesSpace(text: string) returns (i: nat, j: nat)
    ensures i <= j <= |text| && Strip(text) == text[i..j]
    ensures forall k :: 0 <= k < i || j <= k < |text| ==> IsSpace(text[k])
    ensures i < j ==> !IsSpace(text[i]) && !IsSpace(text[j - 1])
    decreases |text|
  {
    hide IsSpace;
    if text != "" && IsSpace(text[0]) {
      var rest := text[1..];
      var from, to := StripRemovesSpace(rest);
      i, j := from + 1, to + 1;
      assert rest[from..to] == text[i..j];
      assert forall k :: 0 < k < |text| ==> text[k] == rest[k - 1];
    } else if text != "" && IsSpace(text[|text| - 1]) {
      var rest := text[..|text| - 1];
      i, j := StripRemovesSpace(rest);
      assert rest[i..j] == text[i..j];
    } else {
      i, j := 0, |text|;
    }
  }

  /** Canonical text is nonblank text that is its own stripped form. */
  lemma StripShortens(text: string)
    ensures |Strip(text)| <= |text|
    ensures text != "" && Strip(text) == text <==> Canonical(text)
  {
    var i, j := StripRemovesSpace(text);
    assert text[0..|text|] == text;
  }

  /** The check made on an optional dictionary field that must hold canonical text. */
  predicate HasText(field: Option<string>) {
    field.Some? && Canonical(field.value)
  }
}
