// Validation rules (EffectorForms/Validator.swift): a rule is a name and a
// validator that returns nil when the value passes and an error text when
// it does not. The built-in rules on strings measure the string's length
// or trim its whitespace; those on integers compare against a bound. A
// caller-supplied error text replaces the default message.

module Validators {
  import opened Optional

  /** `ValidationEvent`: when a field is validated. */
  datatype Trigger = OnSubmit | OnBlur | OnChange

  /** `ValidationRule<Value, Values>`: the validator sees the field's value
      and the whole form's values. */
  datatype Rule<!T, !W> = Rule(name: string, validator: (T, W) -> Option<string>)

  /** The characters `.whitespacesAndNewlines` trims: the Unicode White_Space
      characters. */
  predicate IsWhitespace(c: char) {
    ('\U{0009}' <= c <= '\U{000D}') || c == ' ' || c == '\U{0085}' || c == '\U{00A0}' || c == '\U{1680}'
    || ('\U{2000}' <= c <= '\U{200A}') || c == '\U{2028}' || c == '\U{2029}' || c == '\U{202F}'
    || c == '\U{205F}' || c == '\U{3000}'
  }

  /** The string without its leading whitespace. */
  function DropLeading(s: string): (r: string)
    ensures |r| <= |s| && r == s[|s| - |r|..]
    ensures r == [] || !IsWhitespace(r[0])
    ensures forall i :: 0 <= i < |s| - |r| ==> IsWhitespace(s[i])
  {
    if s != [] && IsWhitespace(s[0]) then DropLeading(s[1..]) else s
  }

  /** The string without its trailing whitespace. */
  function DropTrailing(s: string): (r: string)
    ensures |r| <= |s| && r == s[..|r|]
    ensures r == [] || !IsWhitespace(r[|r| - 1])
    ensures forall i :: |r| <= i < |s| ==> IsWhitespace(s[i])
  {
    if s != [] && IsWhitespace(s[|s| - 1]) then DropTrailing(s[..|s| - 1]) else s
  }

  /** `trimmingCharacters(in: .whitespacesAndNewlines)`. */
  function Trim(s: string): string {
    DropTrailing(DropLeading(s))
  }

  /** Trimming leaves nothing exactly when every character is whitespace. */
  lemma TrimBlank(s: string)
    ensures |Trim(s)| == 0 <==> forall i :: 0 <= i < |s| ==> IsWhitespace(s[i])
  {
    var a := DropLeading(s);
    if a != [] {
      assert s[|s| - |a|] == a[0];
    }
  }

  /** Trimming keeps the length exactly when the string neither starts nor
      ends with whitespace. */
  lemma TrimKeepsLength(s: string)
    ensures |Trim(s)| == |s| <==> s == [] || (!IsWhitespace(s[0]) && !IsWhitespace(s[|s| - 1]))
  {
    if s != [] {
      if !IsWhitespace(s[0]) {
        NoLeadingWhitespace(s);
      } else {
        assert |DropLeading(s)| < |s|;
      }
    }
  }

  lemma NoLeadingWhitespace(s: string)
    requires s != [] && !IsWhitespace(s[0])
    ensures DropLeading(s) == s
  {
  }

  function Digit(d: nat): char
    requires d < 10
  {
    "0123456789"[d]
  }

  function NatText(n: nat): string
    decreases n
  {
    if n < 10 then [Digit(n)] else NatText(n / 10) + [Digit(n % 10)]
  }

  /** String interpolation of an `Int`. */
  function IntText(n: int): string {
    if n < 0 then "-" + NatText(-n) else NatText(n)
  }

  /** The message of a failed rule: the caller's text, else the default. */
  function Message(errorText: Option<string>, default: string): string {
    errorText.GetOr(default)
  }

  /** `required`: the string is not blank. */
  function Required<W>(errorText: Option<string>): Rule<string, W> {
    Rule("required", (v: string, w: W) => if |Trim(v)| > 0 then None else Some(Message(errorText, "Required")))
  }

  /** `length(n)`: exactly `n` characters. */
  function Length<W>(length: int, errorText: Option<string>): Rule<string, W> {
    Rule("length", (v: string, w: W) =>
      if |v| == length then None else Some(Message(errorText, "Must be exactly " + IntText(length) + " characters")))
  }

  /** `min(n)` on a string: at least `n` characters. */
  function TextMin<W>(min: int, errorText: Option<string>): Rule<string, W> {
    Rule("min", (v: string, w: W) =>
      if |v| >= min then None else Some(Message(errorText, "Must be at least " + IntText(min) + " characters")))
  }

  /** `max(n)` on a string: at most `n` characters. */
  function TextMax<W>(max: int, errorText: Option<string>): Rule<string, W> {
    Rule("max", (v: string, w: W) =>
      if |v| <= max then None else Some(Message(errorText, "Must be at most " + IntText(max) + " characters")))
  }

  /** `trim`: trimming would not change the string. */
  function Trimmed<W>(errorText: Option<string>): Rule<string, W> {
    Rule("trim", (v: string, w: W) =>
      if |Trim(v)| == |v| then None else Some(Message(errorText, "Must be a trimmed string")))
  }

  /** `min(n)` on an integer: at least `n`. */
  function IntMin<W>(min: int, errorText: Option<string>): Rule<int, W> {
    Rule("min", (v: int, w: W) =>
      if v >= min then None else Some(Message(errorText, "Must be greater than or equal to " + IntText(min))))
  }

  /** `max(n)` on an integer: at most `n`. */
  function IntMax<W>(max: int, errorText: Option<string>): Rule<int, W> {
    Rule("max", (v: int, w: W) =>
      if v <= max then None else Some(Message(errorText, "Must be less than or equal to " + IntText(max))))
  }

  /** `moreThan(n)`: greater than `n`. */
  function MoreThan<W>(min: int, errorText: Option<string>): Rule<int, W> {
    Rule("moreThan", (v: int, w: W) =>
      if v > min then None else Some(Message(errorText, "Must be greater than " + IntText(min))))
  }

  /** `lessThan(n)`: less than `n`. */
  function LessThan<W>(max: int, errorText: Option<string>): Rule<int, W> {
    Rule("lessThan", (v: int, w: W) =>
      if v < max then None else Some(Message(errorText, "Must be less than " + IntText(max))))
  }

  /** `required` passes exactly when the string has a character that is
      not whitespace, and otherwise answers the caller's text or
      "Required". */
  lemma RequiredRule<W>(errorText: Option<string>, v: string, w: W)
    ensures var r := Required<W>(errorText);
            r.name == "required"
            && (r.validator(v, w).None? <==> exists i :: 0 <= i < |v| && !IsWhitespace(v[i]))
            && (r.validator(v, w).Some? ==> r.validator(v, w).value == errorText.GetOr("Required"))
  {
    TrimBlank(v);
  }

  /** `trim` passes exactly when the string neither starts nor ends with
      whitespace. */
  lemma TrimRule<W>(errorText: Option<string>, v: string, w: W)
    ensures var r := Trimmed<W>(errorText);
            r.name == "trim"
            && (r.validator(v, w).None? <==> v == [] || (!IsWhitespace(v[0]) && !IsWhitespace(v[|v| - 1])))
            && (r.validator(v, w).Some? ==> r.validator(v, w).value == errorText.GetOr("Must be a trimmed string"))
  {
    TrimKeepsLength(v);
  }

  /** The length rules: `length` is exact, `min` and `max` inclusive, so a
      string passes both `min(n)` and `max(n)` exactly when it passes
      `length(n)`. */
  lemma LengthRules<W>(n: int, errorText: Option<string>, v: string, w: W)
    ensures Length<W>(n, errorText).validator(v, w).None? <==> |v| == n
    ensures TextMin<W>(n, errorText).validator(v, w).None? <==> |v| >= n
    ensures TextMax<W>(n, errorText).validator(v, w).None? <==> |v| <= n
    ensures Length<W>(n, errorText).validator(v, w).None?
            <==> TextMin<W>(n, errorText).validator(v, w).None? && TextMax<W>(n, errorText).validator(v, w).None?
    ensures Length<W>(n, errorText).name == "length" && TextMin<W>(n, errorText).name == "min"
            && TextMax<W>(n, errorText).name == "max"
  {
  }

  /** The integer rules: `min` and `max` are inclusive, `moreThan` and
      `lessThan` strict, so `moreThan(n)` is `min(n + 1)` and `lessThan(n)`
      is `max(n - 1)`. */
  lemma BoundRules<W>(n: int, errorText: Option<string>, v: int, w: W)
    ensures IntMin<W>(n, errorText).validator(v, w).None? <==> v >= n
    ensures IntMax<W>(n, errorText).validator(v, w).None? <==> v <= n
    ensures MoreThan<W>(n, errorText).validator(v, w).None? <==> IntMin<W>(n + 1, errorText).validator(v, w).None?
    ensures LessThan<W>(n, errorText).validator(v, w).None? <==> IntMax<W>(n - 1, errorText).validator(v, w).None?
    ensures IntMin<W>(n, errorText).name == "min" && IntMax<W>(n, errorText).name == "max"
            && MoreThan<W>(n, errorText).name == "moreThan" && LessThan<W>(n, errorText).name == "lessThan"
  {
  }

  /** A caller's text is what every failing built-in string rule answers. */
  lemma CallerTextForText<W>(text: string, n: int, s: string, w: W)
    ensures Required<W>(Some(text)).validator(s, w) in {None, Some(text)}
    ensures Length<W>(n, Some(text)).validator(s, w) in {None, Some(text)}
    ensures TextMin<W>(n, Some(text)).validator(s, w) in {None, Some(text)}
    ensures TextMax<W>(n, Some(text)).validator(s, w) in {None, Some(text)}
    ensures Trimmed<W>(Some(text)).validator(s, w) in {None, Some(text)}
  {
  }

  /** A caller's text is what every failing built-in integer rule answers. */
  lemma CallerTextForBounds<W>(text: string, n: int, k: int, w: W)
    ensures IntMin<W>(n, Some(text)).validator(k, w) in {None, Some(text)}
    ensures IntMax<W>(n, Some(text)).validator(k, w) in {None, Some(text)}
    ensures MoreThan<W>(n, Some(text)).validator(k, w) in {None, Some(text)}
    ensures LessThan<W>(n, Some(text)).validator(k, w) in {None, Some(text)}
  {
    var e := Some(text);
    if k < n {
      assert Message(e, "Must be greater than or equal to " + IntText(n)) == text;
    }
    if k > n {
      assert Message(e, "Must be less than or equal to " + IntText(n)) == text;
    }
    if k <= n {
      assert Message(e, "Must be greater than " + IntText(n)) == text;
    }
    if k >= n {
      assert Message(e, "Must be less than " + IntText(n)) == text;
    }
  }
}
