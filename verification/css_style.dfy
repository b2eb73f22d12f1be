/** The four CSS-in-JS properties the layout derivations set, and the column template value. */
module CssStyle {
  import opened Wrappers
  import Decimal

  /** A style object restricted to the properties the layout code writes; `None` means the
      property is absent from the object. */
  datatype Style = Style(
    display: Option<string>,
    gridTemplateColumns: Option<string>,
    gap: Option<string>,
    gridAutoFlow: Option<string>)

  /** The object literal `{}`. */
  const Empty: Style := Style(None, None, None, None)

  const TemplatePrefix: string := "repeat("
  const TemplateSuffix: string := ", 1fr)"

  /** Reads a column count back out of a `repeat(N, 1fr)` value; `None` for any string the
      template literal cannot produce. */
  function ParseRepeatTemplate(t: string): Option<nat> {
    var p, q := |TemplatePrefix|, |TemplateSuffix|;
    if |t| >= p + q && t[..p] == TemplatePrefix && t[|t| - q..] == TemplateSuffix
       && Decimal.IsCanonical(t[p..|t| - q])
    then Some(Decimal.ToNat(t[p..|t| - q]))
    else None
  }

  /** The template literal `repeat(${columns}, 1fr)`; the column count can always be read
      back out of it. */
  function RepeatTemplate(columns: nat): (t: string)
    ensures ParseRepeatTemplate(t) == Some(columns)
  {
    var d := Decimal.FromNat(columns);
    var t := TemplatePrefix + d + TemplateSuffix;
    var p, q := |TemplatePrefix|, |TemplateSuffix|;
    assert t[..p] == TemplatePrefix;
    assert t[|t| - q..] == TemplateSuffix;
    assert t[p..|t| - q] == d;
    Decimal.ToNatFromNat(columns);
    t
  }

  /** Every string the reader accepts is exactly the template of the count it returns. */
  lemma TemplateParseSound(t: string, columns: nat)
    requires ParseRepeatTemplate(t) == Some(columns)
    ensures t == RepeatTemplate(columns)
  {
    var p, q := |TemplatePrefix|, |TemplateSuffix|;
    var mid := t[p..|t| - q];
    Decimal.FromNatToNat(mid);
    assert t == t[..p] + mid + t[|t| - q..];
  }

  /** Different column counts give different templates. */
  lemma RepeatTemplateInjective(a: nat, b: nat)
    requires RepeatTemplate(a) == RepeatTemplate(b)
    ensures a == b
  {
  }
}
