/** The money-string readers that decide whether `.` or `,` is the decimal separator.
    `ParseValorMonetario` is the catalogue's reader (src/app/page.tsx), repeated verbatim
    three times in the unit card; `ParseValorMonetarioCaixa` is the simulator form's variant. */
module Money {
  import opened Wrappers
  import opened Strings
  import opened Decimal

  /** Characters `/[R$\s]/g` deletes. */
  predicate IsNoise(c: char) { c == 'R' || c == '$' || IsSpace(c) }

  /** `valor.replace(/[R$\s]/g, '')`. */
  function Limpar(valor: string): (r: string)
    ensures forall i :: 0 <= i < |r| ==> !IsNoise(r[i])
    ensures (forall i :: 0 <= i < |valor| ==> !IsNoise(valor[i])) ==> r == valor
  {
    if forall i :: 0 <= i < |valor| ==> !IsNoise(valor[i]) then
      FilterKeepsAll(valor, c => !IsNoise(c));
      Filter(valor, c => !IsNoise(c))
    else Filter(valor, c => !IsNoise(c))
  }

  /** The catalogue's reader: with both separators dots group thousands and the comma is decimal;
      with dots only, a last group of exactly two characters makes the dot decimal, otherwise every
      dot groups thousands; with no dot the text is read as is. */
  function ParseValorMonetario(valor: string): (r: Option<real>)
    ensures |Limpar(valor)| == 0 ==> r.None?
    ensures var limpo := Limpar(valor);
      |limpo| > 0 && AllDigits(limpo) ==> r == Some(DigitsValue(limpo) as real)
  {
    var limpo := Limpar(valor);
    if '.' in limpo && ',' in limpo then
      ParseDecimal(ReplaceFirst(RemoveAll(limpo, '.'), ',', '.'))
    else if '.' in limpo then
      if |LastSegment(limpo, '.')| == 2 then ParseDecimal(limpo)
      else ParseDecimal(RemoveAll(limpo, '.'))
    else ParseDecimal(limpo)
  }

  /** The simulator form's reader: with both separators like the catalogue's; a comma alone is
      the decimal point; otherwise the text is read as is, so every dot is a decimal point. */
  function ParseValorMonetarioCaixa(valor: string): (r: Option<real>)
    ensures var limpo := Limpar(valor);
      ('.' in limpo <==> ',' in limpo) ==> r == ParseValorMonetario(valor)
  {
    var limpo := Limpar(valor);
    if '.' in limpo && ',' in limpo then
      ParseDecimal(ReplaceFirst(RemoveAll(limpo, '.'), ',', '.'))
    else if ',' in limpo then
      ParseDecimal(ReplaceFirst(limpo, ',', '.'))
    else ParseDecimal(limpo)
  }

  /** Integer-part text: digits with dots as group separators, at least one digit. */
  predicate DigitsAndDots(t: string) {
    (forall i :: 0 <= i < |t| ==> IsDigit(t[i]) || t[i] == '.') &&
    AllDigits(RemoveAll(t, '.')) && |RemoveAll(t, '.')| > 0
  }

  lemma RemoveDotsAllDigits(t: string)
    requires forall i :: 0 <= i < |t| ==> IsDigit(t[i]) || t[i] == '.'
    ensures AllDigits(RemoveAll(t, '.'))
  {
    var d := RemoveAll(t, '.');
    forall i | 0 <= i < |d| ensures IsDigit(d[i]) {
      assert d[i] in d;
      assert d[i] in t;
    }
  }

  /** Text made of digits and the two separators only. */
  predicate MoneyChars(x: string) {
    forall i :: 0 <= i < |x| ==> IsDigit(x[i]) || x[i] == '.' || x[i] == ','
  }

  lemma CleanText(x: string)
    requires MoneyChars(x)
    ensures Limpar(x) == x
  {
  }

  /** Digit strings hold neither separator. */
  lemma DigitsAreMoneyChars(d: string)
    requires AllDigits(d)
    ensures MoneyChars(d) && '.' !in d && ',' !in d
  {
    assert forall i :: 0 <= i < |d| ==> IsDigit(d[i]);
  }

  lemma MoneyCharsJoin(a: string, sep: char, b: string)
    requires MoneyChars(a) && MoneyChars(b) && (sep == '.' || sep == ',')
    ensures MoneyChars(a + [sep] + b)
  {
    var x := a + [sep] + b;
    forall i | 0 <= i < |x| ensures IsDigit(x[i]) || x[i] == '.' || x[i] == ',' {
      if i < |a| { assert x[i] == a[i]; } else if i > |a| { assert x[i] == b[i - |a| - 1]; }
    }
  }

  /** The currency prefix `R$ ` is ignored by both readers. */
  lemma PrefixIgnored(x: string)
    ensures Limpar("R$ " + x) == Limpar(x)
    ensures ParseValorMonetario("R$ " + x) == ParseValorMonetario(x)
    ensures ParseValorMonetarioCaixa("R$ " + x) == ParseValorMonetarioCaixa(x)
  {
    FilterAppend("R$ ", x, c => !IsNoise(c));
    assert Filter("R$ ", c => !IsNoise(c)) == "";
    assert "" + Filter(x, c => !IsNoise(c)) == Filter(x, c => !IsNoise(c));
  }

  /** With both separators both readers drop the dots and read the first comma as the point. */
  lemma BothSeparatorsBranch(x: string)
    requires Limpar(x) == x && '.' in x && ',' in x
    ensures ParseValorMonetario(x) == ParseDecimal(ReplaceFirst(RemoveAll(x, '.'), ',', '.'))
    ensures ParseValorMonetarioCaixa(x) == ParseDecimal(ReplaceFirst(RemoveAll(x, '.'), ',', '.'))
  {
  }

  /** `t,c` with `t` of digits and dots and `c` of digits is clean and holds both separators. */
  lemma BrazilianShapeClean(t: string, c: string)
    requires DigitsAndDots(t) && '.' in t && AllDigits(c)
    ensures Limpar(t + "," + c) == t + "," + c
    ensures '.' in t + "," + c && ',' in t + "," + c
  {
    MoneyCharsJoin(t, ',', c);
    assert t + "," + c == t + [','] + c;
    CleanText(t + "," + c);
    assert (t + "," + c)[|t|] == ',';
    assert forall e :: e in t ==> e in t + "," + c;
  }

  /** Dropping the dots of `t,c` and turning the comma into a point gives `d.c`. */
  lemma BrazilianShapeRewrite(t: string, c: string)
    requires AllDigits(RemoveAll(t, '.')) && AllDigits(c)
    ensures ReplaceFirst(RemoveAll(t + "," + c, '.'), ',', '.') == RemoveAll(t, '.') + "." + c
  {
    var tail := "," + c;
    var d := RemoveAll(t, '.');
    assert '.' !in tail by { assert forall i :: 0 <= i < |c| ==> IsDigit(c[i]); }
    RemoveAllAppend(t, tail, '.');
    assert RemoveAll(tail, '.') == tail;
    assert t + "," + c == t + tail;
    assert RemoveAll(t + tail, '.') == d + [','] + c;
    DigitsAreMoneyChars(d);
    ReplaceFirstAfter(d, ',', c, '.');
    assert d + ['.'] + c == d + "." + c;
  }

  /** Reading `t,c` where `t` groups digits with dots: the dots vanish and the comma becomes
      the decimal point, in both readers (e.g. "791.347,00"). */
  lemma BrazilianFormat(t: string, c: string)
    requires DigitsAndDots(t) && '.' in t && AllDigits(c)
    ensures ParseValorMonetario(t + "," + c) == Some(DecimalValue(RemoveAll(t, '.'), c))
    ensures ParseValorMonetarioCaixa(t + "," + c) == Some(DecimalValue(RemoveAll(t, '.'), c))
  {
    BrazilianShapeClean(t, c);
    BrazilianShapeRewrite(t, c);
    BothSeparatorsBranch(t + "," + c);
    ParseDecimalFraction(RemoveAll(t, '.'), c);
  }

  /** Dots only and a last group not of two characters: every dot groups thousands
      (e.g. "829.000" is 829000). */
  lemma ThousandsOnly(t: string)
    requires DigitsAndDots(t) && '.' in t && |LastSegment(t, '.')| != 2
    ensures ParseValorMonetario(t) == Some(DigitsValue(RemoveAll(t, '.')) as real)
  {
    CleanText(t);
    assert ',' !in t by { assert forall i :: 0 <= i < |t| ==> t[i] != ','; }
  }

  /** `a.b` with digit strings `a` and `b` is clean text containing a dot and no comma. */
  lemma DottedShape(a: string, b: string)
    requires AllDigits(a) && AllDigits(b)
    ensures Limpar(a + "." + b) == a + "." + b
    ensures '.' in a + "." + b && ',' !in a + "." + b
    ensures LastSegment(a + "." + b, '.') == b
    ensures RemoveAll(a + "." + b, '.') == a + b
  {
    var x := a + "." + b;
    assert x == a + ['.'] + b;
    DottedClean(a, b);
    assert x[|a|] == '.';
    assert ',' !in x by {
      DigitsAreMoneyChars(a);
      DigitsAreMoneyChars(b);
    }
    assert LastSegment(x, '.') == b by {
      DigitsAreMoneyChars(b);
      LastSegmentAfter(a, '.', b);
    }
    assert RemoveAll(x, '.') == a + b by { DottedRemove(a, b); }
  }

  lemma DottedClean(a: string, b: string)
    requires AllDigits(a) && AllDigits(b)
    ensures Limpar(a + "." + b) == a + "." + b
  {
    DigitsAreMoneyChars(a);
    DigitsAreMoneyChars(b);
    MoneyCharsJoin(a, '.', b);
    assert a + "." + b == a + ['.'] + b;
    CleanText(a + "." + b);
  }

  lemma DottedRemove(a: string, b: string)
    requires AllDigits(a) && AllDigits(b)
    ensures RemoveAll(a + "." + b, '.') == a + b
  {
    DigitsAreMoneyChars(a);
    DigitsAreMoneyChars(b);
    RemoveAllAppend(a + ".", b, '.');
    RemoveAllAppend(a, ".", '.');
    assert RemoveAll(".", '.') == "";
  }

  /** Digits, a dot and exactly two digits: the dot is decimal (e.g. "791347.00"). */
  lemma CentsAfterDot(a: string, c: string)
    requires |a| > 0 && AllDigits(a) && AllDigits(c) && |c| == 2
    ensures ParseValorMonetario(a + "." + c) == Some(DecimalValue(a, c))
  {
    DottedShape(a, c);
    ParseDecimalFraction(a, c);
  }

  /** Digits, a dot and a group of three digits: the dot groups thousands (e.g. "829.000"). */
  lemma ThousandsGroup(a: string, b: string)
    requires |a| > 0 && AllDigits(a) && AllDigits(b) && |b| == 3
    ensures AllDigits(a + b) && DigitsValue(a + b) == DigitsValue(a) * 1000 + DigitsValue(b)
    ensures ParseValorMonetario(a + "." + b) == Some(DigitsValue(a + b) as real)
  {
    var x := a + "." + b;
    DottedShape(a, b);
    assert |LastSegment(x, '.')| != 2;
    assert ParseValorMonetario(x) == ParseDecimal(RemoveAll(x, '.'));
    DigitsValueAppend(a, b);
    var v := DigitsValue(a + b);
    assert Pow10(|b|) == 1000 by { assert Pow10(3) == 1000; }
    assert v == DigitsValue(a) * 1000 + DigitsValue(b);
    assert |a + b| > 0;
    assert ParseDecimal(a + b) == Some(v as real);
    assert RemoveAll(x, '.') == a + b;
    assert ParseValorMonetario(x) == Some(v as real);
  }

  /** A plain digit string reads as its value in both readers. */
  lemma PlainDigits(d: string)
    requires |d| > 0 && AllDigits(d)
    ensures ParseValorMonetario(d) == Some(DigitsValue(d) as real)
    ensures ParseValorMonetarioCaixa(d) == Some(DigitsValue(d) as real)
  {
    DigitsAreMoneyChars(d);
    CleanText(d);
  }

  /** The simulator form's reader treats a lone dot as decimal whatever follows it. */
  lemma CaixaDotIsDecimal(a: string, b: string)
    requires |a| > 0 && AllDigits(a) && AllDigits(b)
    ensures ParseValorMonetarioCaixa(a + "." + b) == Some(DecimalValue(a, b))
  {
    DottedShape(a, b);
    ParseDecimalFraction(a, b);
  }

  /** The simulator form's reader treats a lone comma as the decimal point. */
  lemma CaixaCommaIsDecimal(a: string, b: string)
    requires |a| > 0 && AllDigits(a) && AllDigits(b)
    ensures ParseValorMonetarioCaixa(a + "," + b) == Some(DecimalValue(a, b))
  {
    var x := a + "," + b;
    DigitsAreMoneyChars(a);
    DigitsAreMoneyChars(b);
    MoneyCharsJoin(a, ',', b);
    assert x == a + [','] + b;
    CleanText(x);
    assert x[|a|] == ',';
    assert '.' !in x;
    ReplaceFirstAfter(a, ',', b, '.');
    assert ParseValorMonetarioCaixa(x) == ParseDecimal(ReplaceFirst(x, ',', '.'));
    ParseDecimalFraction(a, b);
  }

  /** The two readers disagree on a thousands group written with a dot: "a.bbb" is
      `a*1000 + bbb` for the catalogue and `a + bbb/1000` for the simulator form
      (so "829.000" is 829000 in one and 829 in the other). */
  lemma ReadersDisagreeOnThousands(a: string, b: string)
    requires |a| > 0 && AllDigits(a) && AllDigits(b) && |b| == 3
    requires DigitsValue(a) > 0
    ensures ParseValorMonetario(a + "." + b).Some? && ParseValorMonetarioCaixa(a + "." + b).Some?
    ensures ParseValorMonetarioCaixa(a + "." + b).value < ParseValorMonetario(a + "." + b).value
  {
    ThousandsGroup(a, b);
    CaixaDotIsDecimal(a, b);
    assert DigitsValue(a) as real + 1.0 <= (DigitsValue(a) * 1000) as real;
  }
}
