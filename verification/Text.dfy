/** The few string operations of Python that decide an outcome. */
module Text {
  /** `str.isspace` of one character. */
  predicate IsSpace(c: char) {
    || c == ' ' || '\t' <= c <= '\r' || '\U{1C}' <= c <= '\U{1F}'
    || c in {'\U{85}', '\U{A0}', '\U{1680}', '\U{2028}', '\U{2029}', '\U{202F}', '\U{205F}', '\U{3000}'}
    || '\U{2000}' <= c <= '\U{200A}'
  }

  predicate Blank(text: string) {
    forall i | 0 <= i < |text| :: IsSpace(text[i])
  }

  /** `str.strip`. */
  function Strip(text: string): string
    decreases |text|
  {
    if text == "" then text
    else if IsSpace(text[0]) then Strip(text[1..])
    else if IsSpace(text[|text| - 1]) then Strip(text[..|text| - 1])
    else text
  }

  predicate EndsWith(text: string, suffix: string) {
    |suffix| <= |text| && text[|text| - |suffix|..] == suffix
  }

  /** Stripping leaves nothing exactly when there was nothing but white space. */
  lemma {:induction false} StripOfBlank(text: string)
    ensures Strip(text) == "" <==> Blank(text)
    decreases |text|
  {
    if text != "" {
      if IsSpace(text[0]) {
        StripOfBlank(text[1..]);
        assert Blank(text[1..]) ==> Blank(text) by {
          forall i | 0 <= i < |text| && Blank(text[1..])
            ensures IsSpace(text[i])
          {
            assert i > 0 ==> text[i] == text[1..][i - 1];
          }
        }
      } else if IsSpace(text[|text| - 1]) {
        StripOfBlank(text[..|text| - 1]);
        assert text[0] == text[..|text| - 1][0];
      }
    }
  }
}
