/** The money input field (src/components/ui/currency-input.tsx): how it reads a value as a number,
    how it cleans what is typed, what it reports through `onChange`, and the display and focus
    state its handlers update. Number-to-text output (`toString`, `toLocaleString`) is kept
    symbolic: the display holds the typed text, a number shown raw, or a number shown formatted. */
module CampoMoeda {
  import opened Wrappers
  import opened Strings
  import opened Decimal
  import Money

  /** The `value` prop, `string | number`. */
  datatype Valor = Numero(n: real) | Texto(s: string)

  // ---------------------------------------------------------------- reading a value

  /** The text `parseToNumber` hands to `parseFloat`: with both separators the dots go and the
      comma becomes the point; with a comma only, it is the point when one or two characters
      follow it (up to a second comma), and is deleted otherwise; with a dot only, the text is
      read as it is. */
  function Normalizar(cleaned: string): string {
    var hasComma := ',' in cleaned;
    var hasDot := '.' in cleaned;
    if hasComma && hasDot then ReplaceFirst(RemoveAll(cleaned, '.'), ',', '.')
    else if hasComma then
      var parte := SecondSegment(cleaned, ',').value;
      if |parte| > 0 && |parte| <= 2 then ReplaceFirst(cleaned, ',', '.')
      else RemoveFirst(cleaned, ',')
    else cleaned
  }

  /** `parseToNumber`: a number is kept; blank text is 0; other text is trimmed, normalised and
      read with `parseFloat`, and text that does not read is 0, never `NaN`. */
  function ParseToNumber(val: Valor): (r: real)
    ensures val.Numero? ==> r == val.n
    ensures val.Texto? && Trim(val.s) == "" ==> r == 0.0
    ensures val.Texto? && Trim(val.s) != "" && ParseDecimal(Normalizar(Trim(val.s))).None? ==> r == 0.0
  {
    match val
    case Numero(n) => n
    case Texto(s) =>
      if Trim(s) == "" then 0.0
      else
        match ParseDecimal(Normalizar(Trim(s)))
        case None => 0.0
        case Some(num) => num
  }

  /** The text after the only comma is the second comma-separated segment. */
  lemma SegundoSegmento(ip: string, fp: string)
    requires ',' !in ip && ',' !in fp
    ensures SecondSegment(ip + "," + fp, ',') == Some(fp)
  {
    var x := ip + "," + fp;
    assert x == ip + [','] + fp;
    IndexOfAfter(ip, ',', fp);
    assert x[|ip| + 1..] == fp;
  }

  /** With a comma and no dot, the comma is the point before one or two digits and is deleted
      before more. */
  lemma NormalizarVirgula(ip: string, fp: string)
    requires AllDigits(ip) && AllDigits(fp)
    ensures Normalizar(ip + "," + fp) == if 1 <= |fp| <= 2 then ip + "." + fp else ip + fp
  {
    var x := ip + "," + fp;
    Money.DigitsAreMoneyChars(ip);
    Money.DigitsAreMoneyChars(fp);
    assert x == ip + [','] + fp;
    assert '.' !in x && ',' in x;
    SegundoSegmento(ip, fp);
    if 1 <= |fp| <= 2 {
      ReplaceFirstAfter(ip, ',', fp, '.');
      assert ip + ['.'] + fp == ip + "." + fp;
    } else {
      RemoveFirstAfter(ip, ',', fp);
    }
  }

  /** A digit, more text, one separator and digits: no blank at either end, so `trim` keeps
      the text. */
  lemma SemBrancos(ip: string, sep: char, fp: string)
    requires |ip| > 0 && IsDigit(ip[0]) && AllDigits(fp) && !IsSpace(sep)
    ensures Trim(ip + [sep] + fp) == ip + [sep] + fp
  {
    var x := ip + [sep] + fp;
    assert x[0] == ip[0];
    assert !IsSpace(x[0]);
    if |fp| > 0 {
      assert x[|x| - 1] == fp[|fp| - 1];
    }
    assert !IsSpace(x[|x| - 1]);
  }

  /** Digits, a comma and one or two digits: the comma is the decimal point ("1000,50"). */
  lemma VirgulaDecimal(ip: string, fp: string)
    requires |ip| > 0 && AllDigits(ip) && AllDigits(fp) && 1 <= |fp| <= 2
    ensures ParseToNumber(Texto(ip + "," + fp)) == DecimalValue(ip, fp)
  {
    SemBrancos(ip, ',', fp);
    assert ip + [','] + fp == ip + "," + fp;
    NormalizarVirgula(ip, fp);
    ParseDecimalFraction(ip, fp);
  }

  /** Digits, a comma and three or more digits: the comma groups thousands and is deleted
      ("1,000" is 1000). */
  lemma VirgulaDeMilhar(ip: string, fp: string)
    requires |ip| > 0 && AllDigits(ip) && AllDigits(fp) && |fp| >= 3
    ensures ParseToNumber(Texto(ip + "," + fp)) == DigitsValue(ip + fp) as real
  {
    SemBrancos(ip, ',', fp);
    assert ip + [','] + fp == ip + "," + fp;
    NormalizarVirgula(ip, fp);
    AllDigitsAppend(ip, fp);
  }

  /** Digit groups with dots, a comma and digits: the Brazilian form ("1.000,50"). */
  lemma FormatoBrasileiro(t: string, c: string)
    requires Money.DigitsAndDots(t) && '.' in t && AllDigits(c) && IsDigit(t[0])
    ensures ParseToNumber(Texto(t + "," + c)) == DecimalValue(RemoveAll(t, '.'), c)
  {
    Money.BrazilianShapeClean(t, c);
    SemBrancos(t, ',', c);
    assert t + [','] + c == t + "," + c;
    Money.BrazilianShapeRewrite(t, c);
    ParseDecimalFraction(RemoveAll(t, '.'), c);
  }

  /** A dot alone is always the decimal point, so "1.000" reads as 1, not as a thousand. */
  lemma PontoSempreDecimal(ip: string, fp: string)
    requires |ip| > 0 && AllDigits(ip) && AllDigits(fp)
    ensures ParseToNumber(Texto(ip + "." + fp)) == DecimalValue(ip, fp)
  {
    SemBrancos(ip, '.', fp);
    assert ip + ['.'] + fp == ip + "." + fp;
    Money.DottedShape(ip, fp);
    ParseDecimalFraction(ip, fp);
  }

  // ---------------------------------------------------------------- what onChange receives

  /** `parseToRawString`: '' (here `None`) for blank text and for text that reads as 0, the number
      otherwise (sent as `numValue.toString()`). */
  function ParseToRawString(displayVal: string): (r: Option<real>)
    ensures r.None? <==> ParseToNumber(Texto(displayVal)) == 0.0
    ensures r.Some? ==> r.value == ParseToNumber(Texto(displayVal)) && r.value != 0.0
  {
    if Trim(displayVal) == "" then None
    else
      var numValue := ParseToNumber(Texto(displayVal));
      if numValue == 0.0 then None else Some(numValue)
  }

  /** Typing a whole number sends that number: "1000" is reported as 1000, whose `toString` is
      the digits typed. */
  lemma DigitadoEnviado(n: nat)
    requires n > 0
    ensures ParseToRawString(NatToDigits(n)) == Some(n as real)
  {
    var d := NatToDigits(n);
    Money.DigitsAreMoneyChars(d);
    assert Trim(d) == d by {
      assert !IsSpace(d[0]) && !IsSpace(d[|d| - 1]);
    }
    assert Normalizar(d) == d;
  }

  // ---------------------------------------------------------------- cleaning what is typed

  /** The characters `handleChange` lets through: digits, comma, dot and minus. */
  predicate CaractereDeValor(c: char) {
    IsDigit(c) || c == ',' || c == '.' || c == '-'
  }

  predicate NoMaximoUmaVirgula(s: string) {
    forall i, j :: 0 <= i < j < |s| && s[i] == ',' ==> s[j] != ','
  }

  lemma UmaVirgulaEntre(a: string, b: string)
    requires ',' !in a && ',' !in b
    ensures NoMaximoUmaVirgula(a + "," + b)
  {
    var x := a + "," + b;
    forall i, j | 0 <= i < j < |x| && x[i] == ','
      ensures x[j] != ','
    {
      assert i == |a|;
      assert x[j] == b[j - |a| - 1];
      assert x[j] in b;
    }
  }

  /** `parts[0] + ',' + parts.slice(1).join('')` when there are two commas or more: the first
      comma stays and every later one goes. */
  function UmaVirgula(s: string): (r: string)
    ensures NoMaximoUmaVirgula(r)
    ensures ',' in r <==> ',' in s
    ensures forall x :: x != ',' ==> (x in r <==> x in s)
    ensures Filter(r, IsDigit) == Filter(s, IsDigit)
  {
    if ',' !in s then s
    else
      var k := IndexOf(s, ',').value;
      assert s == s[..k] + [','] + s[k + 1..];
      assert s[..k] + [','] + s[k + 1..] == s[..k] + "," + s[k + 1..];
      if ',' in s[k + 1..] then
        var r := s[..k] + "," + RemoveAll(s[k + 1..], ',');
        UmaVirgulaEntre(s[..k], RemoveAll(s[k + 1..], ','));
        assert r[k] == ',';
        assert forall x :: x in s <==> x in s[..k] || x == ',' || x in s[k + 1..];
        assert forall x :: x in r <==> x in s[..k] || x == ',' || x in RemoveAll(s[k + 1..], ',');
        DigitosSemVirgula(s[..k], s[k + 1..]);
        r
      else
        UmaVirgulaEntre(s[..k], s[k + 1..]);
        s
  }

  lemma DigitosSemVirgula(a: string, b: string)
    ensures Filter(a + "," + RemoveAll(b, ','), IsDigit) == Filter(a + "," + b, IsDigit)
  {
    FilterAppend(a + ",", RemoveAll(b, ','), IsDigit);
    FilterAppend(a + ",", b, IsDigit);
    RemoveAllFilter(b, ',', IsDigit);
  }

  /** With both separators typed, the dots go; otherwise the text is kept. */
  function SemPontosDeMilhar(a: string): (r: string)
    ensures ',' in a && '.' in a ==> '.' !in r
    ensures !(',' in a && '.' in a) ==> r == a
    ensures forall x :: x != '.' ==> (x in r <==> x in a)
    ensures Filter(r, IsDigit) == Filter(a, IsDigit)
  {
    if ',' in a && '.' in a then
      RemoveAllFilter(a, '.', IsDigit);
      RemoveAll(a, '.')
    else a
  }

  /** `handleChange`'s cleaning: drop every other character; with both separators drop the
      dots; keep only the first comma. */
  function Sanear(entrada: string): (r: string)
    ensures forall i :: 0 <= i < |r| ==> CaractereDeValor(r[i])
    ensures ',' in entrada && '.' in entrada ==> '.' !in r
    ensures NoMaximoUmaVirgula(r)
    ensures ',' in r <==> ',' in entrada
    ensures Filter(r, IsDigit) == Filter(entrada, IsDigit)
  {
    var a := Filter(entrada, CaractereDeValor);
    FilterFilter(entrada, CaractereDeValor, IsDigit);
    var r := UmaVirgula(SemPontosDeMilhar(a));
    assert forall i :: 0 <= i < |r| ==> r[i] in r;
    r
  }

  /** Text already clean, with digits and at most one comma and no dot, is left as typed. */
  lemma SaneadoEstavel(s: string)
    requires forall i :: 0 <= i < |s| ==> IsDigit(s[i]) || s[i] == ','
    requires NoMaximoUmaVirgula(s)
    ensures Sanear(s) == s
  {
    assert forall c :: c in s ==> CaractereDeValor(c);
    FilterKeepsAll(s, CaractereDeValor);
    assert '.' !in s;
    if ',' in s {
      var k := IndexOf(s, ',').value;
      assert ',' !in s[k + 1..] by {
        forall j | k + 1 <= j < |s| ensures s[j] != ',' { }
      }
    }
  }

  // ---------------------------------------------------------------- the field's state

  /** What the field shows: typed text, a number as `toString` writes it, a number as
      `toLocaleString('pt-BR')` writes it, or nothing. */
  datatype Exibicao = Digitado(texto: string) | Cru(n: real) | Formatado(n: real) | EmBranco

  /** `formatToDisplay(value)`: nothing for '' and for the text "0", the formatted number
      otherwise. */
  function FormatarParaExibir(val: Valor): (r: Exibicao)
    ensures r == EmBranco || r == Formatado(ParseToNumber(val))
    ensures val == Texto("") ==> r == EmBranco
    ensures val.Numero? ==> r == Formatado(val.n)
  {
    if val == Texto("") then EmBranco
    else
      var n := ParseToNumber(val);
      if n == 0.0 && val == Texto("0") then EmBranco else Formatado(n)
  }

  /** What `handleFocus` shows for a non-empty value: the number raw, or nothing for 0. */
  function ExibicaoAoFocar(val: Valor): Exibicao {
    var n := ParseToNumber(val);
    if n != 0.0 then Cru(n) else EmBranco
  }

  /** `formatToDisplay(displayValue)` on leaving the field. A raw number is formatted again; a
      display that is already formatted is kept (its pt-BR text is not modelled). */
  function FormatarExibicao(e: Exibicao): (r: Exibicao)
    ensures e == EmBranco ==> r == EmBranco
    ensures e.Cru? ==> r == Formatado(e.n)
  {
    match e
    case Digitado(s) => FormatarParaExibir(Texto(s))
    case Cru(n) => Formatado(n)
    case Formatado(n) => Formatado(n)
    case EmBranco => EmBranco
  }

  /** Focusing a field and leaving it without typing shows what it showed before, unless the
      value reads as 0 ("0,00" is shown formatted before and blank after). */
  lemma FocoSemEdicao(val: Valor)
    requires val != Texto("") && ParseToNumber(val) != 0.0
    ensures FormatarExibicao(ExibicaoAoFocar(val)) == FormatarParaExibir(val)
  {
  }

  class Campo {
    var exibido: Exibicao
    var focado: bool
    /** The values passed to `onChange` so far; `None` is ''. */
    var enviados: seq<Option<real>>

    constructor()
      ensures exibido == EmBranco && !focado && enviados == []
    {
      exibido := EmBranco;
      focado := false;
      enviados := [];
    }

    /** The effect on a new `value`: the display follows it only while the field is not focused. */
    method Sincronizar(value: Valor)
      modifies this
      ensures focado == old(focado) && enviados == old(enviados)
      ensures exibido == (if old(focado) then old(exibido) else FormatarParaExibir(value))
    {
      if !focado {
        exibido := FormatarParaExibir(value);
      }
    }

    /** `handleFocus`: the field is focused and shows the raw number of a non-empty value. */
    method AoFocar(value: Valor)
      modifies this
      ensures focado && enviados == old(enviados)
      ensures value == Texto("") ==> exibido == old(exibido)
      ensures value != Texto("") ==> exibido == ExibicaoAoFocar(value)
    {
      focado := true;
      if value != Texto("") {
        exibido := ExibicaoAoFocar(value);
      }
    }

    /** `handleBlur`: the field is no longer focused and its display is formatted. */
    method AoSair()
      modifies this
      ensures !focado && enviados == old(enviados)
      ensures exibido == FormatarExibicao(old(exibido))
    {
      focado := false;
      exibido := FormatarExibicao(exibido);
    }

    /** `handleChange`: the cleaned text is shown and its raw value reported. */
    method AoDigitar(entrada: string)
      modifies this
      ensures focado == old(focado)
      ensures exibido == Digitado(Sanear(entrada))
      ensures enviados == old(enviados) + [ParseToRawString(Sanear(entrada))]
    {
      var inputValue := Sanear(entrada);
      exibido := Digitado(inputValue);
      var rawValue := ParseToRawString(inputValue);
      enviados := enviados + [rawValue];
    }
  }
}
