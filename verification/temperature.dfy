/** The temperature-unit hook: a Celsius flag, the conversion and symbol it selects, the toggle,
    and the flag's initial value read back from its saved text. Temperatures are exact reals. */
module Temperature {
  import opened Wrappers

  /** The default of the hook's `initialUnit` parameter: Celsius. */
  const DefaultInitialUnit: bool := true

  /** Fahrenheit for a Celsius reading: `t * 9 / 5 + 32`. */
  function CelsiusToFahrenheit(t: real): real {
    t * 9.0 / 5.0 + 32.0
  }

  /** The inverse map, used only to state that the conversion loses nothing. */
  function FahrenheitToCelsius(f: real): real {
    (f - 32.0) * 5.0 / 9.0
  }

  /** `convert`: a Celsius reading shown in the selected unit. */
  function Convert(isCelsius: bool, t: real): (shown: real)
    ensures isCelsius ==> shown == t
    ensures !isCelsius ==> FahrenheitToCelsius(shown) == t
  {
    if isCelsius then t else CelsiusToFahrenheit(t)
  }

  /** Conversion is invertible and order-preserving, with -40 its one fixed point. */
  lemma ConvertFaithful(isCelsius: bool, a: real, b: real)
    ensures a < b ==> Convert(isCelsius, a) < Convert(isCelsius, b)
    ensures Convert(isCelsius, a) == Convert(isCelsius, b) ==> a == b
    ensures !isCelsius ==> (Convert(isCelsius, a) == a <==> a == -40.0)
  {
  }

  /** `symbol`. */
  function Symbol(isCelsius: bool): (s: string)
    ensures s == "°C" <==> isCelsius
    ensures s == "°F" <==> !isCelsius
  {
    if isCelsius then "°C" else "°F"
  }

  /** `toggle`. */
  function Toggle(isCelsius: bool): (flipped: bool)
    ensures flipped != isCelsius
  {
    !isCelsius
  }

  /** Toggling twice restores the unit; toggling once changes the symbol. */
  lemma ToggleTwice(isCelsius: bool)
    ensures Toggle(Toggle(isCelsius)) == isCelsius
    ensures Symbol(Toggle(isCelsius)) != Symbol(isCelsius)
  {
  }

  /** `JSON.stringify(isCelsius)`, the text the hook saves on every change. */
  function SavedText(isCelsius: bool): string {
    if isCelsius then "true" else "false"
  }

  // ---------------------------------------------------------------- reading the saved text

  /** The whitespace `JSON.parse` skips around a value: space, tab, line feed, carriage return. */
  predicate IsJsonSpace(c: char) {
    c == ' ' || c == '\t' || c == '\n' || c == '\r'
  }

  predicate AllJsonSpace(s: string) {
    forall i | 0 <= i < |s| :: IsJsonSpace(s[i])
  }

  /** `JSON.parse(text)` yields the literal `lit`: the text is `lit` with only JSON whitespace
      before and after it. */
  predicate ParsesAs(text: string, lit: string) {
    exists i | 0 <= i <= |text| - |lit| :: PaddedAt(text, lit, i)
  }

  /** `lit` sits at position `i` of `text`, with only JSON whitespace around it. */
  predicate PaddedAt(text: string, lit: string, i: int) {
    && 0 <= i <= |text| - |lit|
    && text[i..i + |lit|] == lit
    && AllJsonSpace(text[..i])
    && AllJsonSpace(text[i + |lit|..])
  }

  /** The initial flag: with no saved text, or an empty one, `initialUnit`; otherwise the saved
      text parsed as JSON, which reads a boolean when the text is "true" or "false" surrounded
      by any JSON whitespace. `None` stands for saved text that is not a JSON boolean. */
  function InitialUnit(saved: Option<string>, initialUnit: bool): (unit: Option<bool>)
    ensures (saved.None? || saved == Some("")) ==> unit == Some(initialUnit)
    ensures saved.Some? && saved.value != "" ==>
              forall b :: unit == Some(b) <==> ParsesAs(saved.value, SavedText(b))
    ensures unit.None? <==>
              && saved.Some? && saved.value != ""
              && !ParsesAs(saved.value, "true") && !ParsesAs(saved.value, "false")
  {
    match saved
    case None => Some(initialUnit)
    case Some(text) =>
      if text == "" then Some(initialUnit)
      else if ParsesAs(text, "true") then
        FlagsExclusive(text);
        Some(true)
      else if ParsesAs(text, "false") then Some(false)
      else None
  }

  /** How many JSON whitespace characters `text` starts with. */
  function Lead(text: string): (n: nat)
    ensures n <= |text| && AllJsonSpace(text[..n])
    ensures n < |text| ==> !IsJsonSpace(text[n])
    decreases |text|
  {
    if |text| > 0 && IsJsonSpace(text[0]) then
      var n := 1 + Lead(text[1..]);
      assert text[..n] == [text[0]] + text[1..][..n - 1];
      n
    else 0
  }

  /** A literal that starts with a non-blank sits right after the leading whitespace. */
  lemma PaddedAtLead(text: string, lit: string, i: int)
    requires PaddedAt(text, lit, i) && |lit| > 0 && !IsJsonSpace(lit[0])
    ensures i == Lead(text) && text[i] == lit[0]
  {
    assert text[i] == text[i..i + |lit|][0];
    var n := Lead(text);
    assert forall k | 0 <= k < i :: IsJsonSpace(text[k]) by {
      forall k | 0 <= k < i ensures IsJsonSpace(text[k]) { assert text[..i][k] == text[k]; }
    }
    assert forall k | 0 <= k < n :: IsJsonSpace(text[k]) by {
      forall k | 0 <= k < n ensures IsJsonSpace(text[k]) { assert text[..n][k] == text[k]; }
    }
  }

  /** A text whose first non-blank differs from the literal's first character never parses as it. */
  lemma MismatchNeverParses(text: string, lit: string)
    requires |lit| > 0 && !IsJsonSpace(lit[0])
    requires Lead(text) == |text| || text[Lead(text)] != lit[0]
    ensures !ParsesAs(text, lit)
  {
    forall j | 0 <= j <= |text| - |lit|
      ensures !PaddedAt(text, lit, j)
    {
      if PaddedAt(text, lit, j) {
        PaddedAtLead(text, lit, j);
      }
    }
  }

  /** No text parses as both booleans, so the order in which they are tried does not matter. */
  lemma FlagsExclusive(text: string)
    ensures ParsesAs(text, "true") ==> !ParsesAs(text, "false")
  {
    if ParsesAs(text, "true") {
      var i :| 0 <= i <= |text| - 4 && PaddedAt(text, "true", i);
      PaddedAtLead(text, "true", i);
      MismatchNeverParses(text, "false");
    }
  }

  /** A saved boolean reads back whatever JSON whitespace surrounds it. */
  lemma PaddedFlagRead(pre: string, isCelsius: bool, post: string, initialUnit: bool)
    requires AllJsonSpace(pre) && AllJsonSpace(post)
    ensures InitialUnit(Some(pre + SavedText(isCelsius) + post), initialUnit) == Some(isCelsius)
  {
    var lit := SavedText(isCelsius);
    var text := pre + lit + post;
    assert text[..|pre|] == pre;
    assert text[|pre|..|pre| + |lit|] == lit;
    assert text[|pre| + |lit|..] == post;
    assert PaddedAt(text, lit, |pre|);
  }

  /** With nothing saved, the default `initialUnit` every caller relies on gives Celsius. */
  lemma DefaultIsCelsius()
    ensures InitialUnit(None, DefaultInitialUnit) == Some(true)
  {
  }

  /** What the hook saves it reads back unchanged, whatever `initialUnit` is. */
  lemma SavedUnitRoundTrip(isCelsius: bool, initialUnit: bool)
    ensures InitialUnit(Some(SavedText(isCelsius)), initialUnit) == Some(isCelsius)
  {
    PaddedFlagRead([], isCelsius, [], initialUnit);
    assert [] + SavedText(isCelsius) + [] == SavedText(isCelsius);
  }
}
