/** The canonical text of a design's inputs, used as an identity. */
module CanonicalText {
  import opened Quantities
  import opened Definition

  /** What one field records. */
  datatype Value = Text(text: string) | Number(number: real) | Code(code: int) | Size(size: Quantity)

  datatype Field = Field(name: string, value: Value)

  /** The dimension's SI symbol. */
  function Symbol(d: Dimension): string {
    match d
    case Dimensionless => "1"
    case DimMass => "kg"
    case DimForce => "N"
    case DimLength => "m"
    case DimArea => "m^2"
    case DimSpeed => "m/s"
    case DimDensity => "kg/m^3"
    case DimForcePerArea => "N/m^2"
    case DimMassPerArea => "kg/m^2"
    case DimAngle => "rad"
    case DimPower => "W"
    case DimEnergy => "J"
    case DimDynamicViscosity => "Pa*s"
    case DimMassMoment => "kg*m"
    case DimTime => "s"
    case DimCurrent => "A"
    case DimVoltage => "V"
    case DimCharge => "C"
    case DimRotationRate => "rev/s"
  }

  function EscapeChar(c: char): string {
    if c == '"' || c == '\\' then ['\\', c] else [c]
  }

  function Escape(s: string): string {
    if s == [] then [] else EscapeChar(s[0]) + Escape(s[1..])
  }

  /** Wraps a string so that it cannot forge a field boundary. */
  function Quoted(s: string): string {
    "\"" + Escape(s) + "\""
  }

  method QuoteText(s: string) returns (out: string)
    ensures out == Quoted(s)
  {
    out := "\"";
    for n := 0 to |s|
      invariant out + Escape(s[n..]) == "\"" + Escape(s)
    {
      assert s[n..][0] == s[n] && s[n..][1..] == s[n + 1..];
      if s[n] == '"' || s[n] == '\\' {
        out := out + "\\";
      }
      out := out + [s[n]];
    }
    assert s[|s|..] == [] && out + [] == out;
    out := out + "\"";
  }

  function SizeText(p: Platform, q: Quantity): string {
    if !q.Supplied() then "-" else p.format(q.si) + Symbol(q.dim)
  }

  function ValueText(p: Platform, v: Value): string {
    match v
    case Text(s) => Quoted(s)
    case Number(x) => p.format(x)
    case Code(n) => p.format(Float(n))
    case Size(q) => SizeText(p, q)
  }

  function FieldText(p: Platform, f: Field): string {
    f.name + "=" + ValueText(p, f.value) + ";"
  }

  function Render(p: Platform, fields: seq<Field>): string {
    if fields == [] then [] else FieldText(p, fields[0]) + Render(p, fields[1..])
  }

  lemma {:induction false} RenderJoins(p: Platform, a: seq<Field>, b: seq<Field>)
    ensures Render(p, a + b) == Render(p, a) + Render(p, b)
  {
    if a == [] {
      assert [] + b == b;
    } else {
      assert (a + b)[1..] == a[1..] + b;
      RenderJoins(p, a[1..], b);
    }
  }

  lemma RenderNothing(p: Platform, fields: seq<Field>)
    ensures Render(p, fields[..0]) == []
  {
  }

  lemma RenderNext(p: Platform, fields: seq<Field>, n: nat)
    requires n < |fields|
    ensures Render(p, fields[..n + 1]) == Render(p, fields[..n]) + FieldText(p, fields[n])
  {
    hide FieldText;
    assert fields[..n + 1] == fields[..n] + [fields[n]];
    RenderJoins(p, fields[..n], [fields[n]]);
    assert Render(p, [fields[n]]) == FieldText(p, fields[n]) + [];
  }

  lemma Regroup(a: string, b: string, c: string)
    ensures a + b + c == a + (b + c)
  {
  }

  /** The builder: every writer appends to one string. */
  class Canonical {
    var out: string

    constructor ()
      ensures out == ""
    {
      out := "";
    }

    method WriteField(name: string, value: string)
      modifies this
      ensures out == old(out) + name + "=" + value + ";"
    {
      out := out + name + "=" + value + ";";
    }

    method WriteValue(p: Platform, f: Field)
      modifies this
      ensures out == old(out) + FieldText(p, f)
    {
      match f.value
      case Text(s) =>
        var quoted := QuoteText(s);
        WriteField(f.name, quoted);
      case Number(x) => WriteField(f.name, p.format(x));
      case Code(n) => WriteField(f.name, p.format(Float(n)));
      case Size(q) =>
        if !q.Supplied() {
          WriteField(f.name, "-");
        } else {
          WriteField(f.name, p.format(q.si) + Symbol(q.dim));
        }
    }

    method Write(p: Platform, fields: seq<Field>)
      modifies this
      ensures out == old(out) + Render(p, fields)
    {
      hide FieldText, Render;
      RenderNothing(p, fields);
      assert old(out) + Render(p, fields[..0]) == out;
      for n := 0 to |fields|
        invariant out == old(out) + Render(p, fields[..n])
      {
        WriteValue(p, fields[n]);
        RenderNext(p, fields, n);
        Regroup(old(out), Render(p, fields[..n]), FieldText(p, fields[n]));
      }
      assert fields[..|fields|] == fields;
    }
  }

  // ----- The form reads back ------------------------------------------------

  lemma EscapedCharSplits(a: char, b: char, u: string, v: string)
    requires EscapeChar(a) + u == EscapeChar(b) + v
    ensures a == b && u == v
  {
    var l, r := EscapeChar(a) + u, EscapeChar(b) + v;
    assert l[0] == r[0];
    if |EscapeChar(a)| == 2 {
      assert l[0] == '\\' && r[0] == '\\';
      assert |EscapeChar(b)| == 2;
      assert l[1] == a && r[1] == b;
      assert l[2..] == u && r[2..] == v;
    } else {
      assert |EscapeChar(b)| == 1;
      assert l[1..] == u && r[1..] == v;
    }
  }

  /** A closing quote never starts an escaped character. */
  lemma QuoteEndsText(a: char, u: string, v: string)
    ensures EscapeChar(a) + u != "\"" + v
  {
    assert (EscapeChar(a) + u)[0] != '"';
    assert ("\"" + v)[0] == '"';
  }

  lemma EscapeLeads(a: string, u: string)
    requires a != []
    ensures Escape(a) + "\"" + u == EscapeChar(a[0]) + (Escape(a[1..]) + "\"" + u)
  {
  }

  lemma {:induction false} EscapedSplits(a: string, b: string, u: string, v: string)
    requires Escape(a) + "\"" + u == Escape(b) + "\"" + v
    ensures a == b && u == v
  {
    if a == [] && b == [] {
      assert ("\"" + u)[1..] == u && ("\"" + v)[1..] == v;
      assert Escape(a) + "\"" + u == "\"" + u && Escape(b) + "\"" + v == "\"" + v;
    } else if a == [] {
      EscapeLeads(b, v);
      assert Escape(a) + "\"" + u == "\"" + u;
      QuoteEndsText(b[0], Escape(b[1..]) + "\"" + v, u);
    } else if b == [] {
      EscapeLeads(a, u);
      assert Escape(b) + "\"" + v == "\"" + v;
      QuoteEndsText(a[0], Escape(a[1..]) + "\"" + u, v);
    } else {
      var ta, tb := Escape(a[1..]) + "\"" + u, Escape(b[1..]) + "\"" + v;
      EscapeLeads(a, u);
      EscapeLeads(b, v);
      EscapedCharSplits(a[0], b[0], ta, tb);
      EscapedSplits(a[1..], b[1..], u, v);
      assert a == [a[0]] + a[1..] && b == [b[0]] + b[1..];
    }
  }

  /** Quoted text is self-delimiting: whatever follows, the quoted string and
      the rest can both be read off. */
  lemma QuotedTextIsSelfDelimiting(a: string, b: string, u: string, v: string)
    requires Quoted(a) + u == Quoted(b) + v
    ensures a == b && u == v
  {
    assert Quoted(a) + u == "\"" + (Escape(a) + "\"" + u);
    assert Quoted(b) + v == "\"" + (Escape(b) + "\"" + v);
    SameHead("\"", Escape(a) + "\"" + u, Escape(b) + "\"" + v);
    EscapedSplits(a, b, u, v);
  }

  lemma SameHead(head: string, u: string, v: string)
    requires head + u == head + v
    ensures u == v
  {
    assert (head + u)[|head|..] == u && (head + v)[|head|..] == v;
  }

  lemma LongerTextHoldsTheSeparator(x: string, y: string, u: string, v: string)
    requires |x| < |y| && x + ";" + u == y + ";" + v
    ensures ';' in y
  {
    assert (x + ";" + u)[|x|] == ';' && (y + ";" + v)[|x|] == y[|x|];
  }

  /** Text without the separator ends at the first one. */
  lemma PlainSplits(x: string, y: string, u: string, v: string)
    requires ';' !in x && ';' !in y && x + ";" + u == y + ";" + v
    ensures x == y && u == v
  {
    var l, r := x + ";" + u, y + ";" + v;
    if |x| < |y| {
      LongerTextHoldsTheSeparator(x, y, u, v);
    } else if |y| < |x| {
      LongerTextHoldsTheSeparator(y, x, v, u);
    }
    assert l[..|x|] == x && r[..|y|] == y;
    assert l[|x| + 1..] == u && r[|y| + 1..] == v;
  }

  /** A symbol starts with no number character, except the dimensionless one,
      which alone ends in 1. */
  lemma SymbolsAreTold(d: Dimension)
    ensures Symbol(d) != [] && ';' !in Symbol(d)
    ensures d == Dimensionless <==> Symbol(d)[|Symbol(d)| - 1] == '1'
    ensures d != Dimensionless ==> !NumberChar(Symbol(d)[0])
    ensures d == Dimensionless ==> Symbol(d) == "1"
  {
  }

  lemma SymbolsDiffer(d: Dimension, e: Dimension)
    requires Symbol(d) == Symbol(e)
    ensures d == e
  {
    assert |Symbol(d)| == |Symbol(e)|;
    assert forall i :: 0 <= i < |Symbol(d)| ==> Symbol(d)[i] == Symbol(e)[i];
  }

  lemma ShorterNumber(x: string, y: string, a: string, b: string)
    requires forall k :: 0 <= k < |y| ==> NumberChar(y[k])
    requires |x| < |y| && a != [] && x + a == y + b
    ensures NumberChar(a[0])
  {
    assert (x + a)[|x|] == a[0] && (y + b)[|x|] == y[|x|];
  }

  /** A number followed by its unit is read back, unless the shorter symbol is a
      tail of the longer, which no number fills. */
  lemma MeasureSplits(x: string, y: string, d: Dimension, e: Dimension)
    requires forall k :: 0 <= k < |x| ==> NumberChar(x[k])
    requires forall k :: 0 <= k < |y| ==> NumberChar(y[k])
    requires x + Symbol(d) == y + Symbol(e)
    ensures x == y && d == e
  {
    hide Symbol;
    SymbolsAreTold(d);
    SymbolsAreTold(e);
    var l, r := x + Symbol(d), y + Symbol(e);
    assert l[|l| - 1] == Symbol(d)[|Symbol(d)| - 1] && r[|r| - 1] == Symbol(e)[|Symbol(e)| - 1];
    if d != Dimensionless {
      if |x| < |y| {
        ShorterNumber(x, y, Symbol(d), Symbol(e));
      } else if |y| < |x| {
        ShorterNumber(y, x, Symbol(e), Symbol(d));
      }
    }
    assert |x| == |y|;
    assert l[..|x|] == x && r[..|y|] == y;
    assert l[|x|..] == Symbol(d) && r[|y|..] == Symbol(e);
    SymbolsDiffer(d, e);
  }

  /** The numbers a value holds are float64 values. */
  predicate Representable(p: Platform, v: Value) {
    match v
    case Text(_) => true
    case Number(x) => p.representable(x)
    case Code(n) => p.representable(Float(n))
    case Size(q) => p.representable(q.si)
  }

  predicate SameKind(a: Value, b: Value) {
    (a.Text? && b.Text?) || (a.Number? && b.Number?) || (a.Code? && b.Code?) || (a.Size? && b.Size?)
  }

  lemma FormatIsPlain(p: Platform, x: real)
    requires p.LawfulFormat() && p.representable(x)
    ensures p.format(x) != [] && ';' !in p.format(x)
    ensures forall k :: 0 <= k < |p.format(x)| ==> NumberChar(p.format(x)[k])
  {
    assert forall k :: 0 <= k < |p.format(x)| ==> NumberChar(p.format(x)[k]) && p.format(x)[k] != ';';
  }

  lemma SizeTextIsPlain(p: Platform, q: Quantity)
    requires p.LawfulFormat() && p.representable(q.si)
    ensures ';' !in SizeText(p, q)
    ensures q.Supplied() ==> |SizeText(p, q)| >= 2
  {
    hide Symbol;
    FormatIsPlain(p, q.si);
    SymbolsAreTold(q.dim);
  }

  lemma SizeTextsDiffer(p: Platform, q: Quantity, r: Quantity)
    requires p.LawfulFormat() && p.representable(q.si) && p.representable(r.si)
    requires SizeText(p, q) == SizeText(p, r)
    ensures q == r
  {
    hide Symbol;
    SizeTextIsPlain(p, q);
    SizeTextIsPlain(p, r);
    if q.Supplied() && r.Supplied() {
      FormatIsPlain(p, q.si);
      FormatIsPlain(p, r.si);
      MeasureSplits(p.format(q.si), p.format(r.si), q.dim, r.dim);
    }
  }

  /** Two values of one kind are read apart, whatever follows them. */
  lemma ValuesSplit(p: Platform, a: Value, b: Value, u: string, v: string)
    requires p.LawfulFormat() && SameKind(a, b) && Representable(p, a) && Representable(p, b)
    requires ValueText(p, a) + ";" + u == ValueText(p, b) + ";" + v
    ensures a == b && u == v
  {
    hide Quoted, SizeText;
    match a
    case Text(s) =>
      assert ValueText(p, a) + ";" + u == Quoted(s) + (";" + u);
      assert ValueText(p, b) + ";" + v == Quoted(b.text) + (";" + v);
      QuotedTextIsSelfDelimiting(s, b.text, ";" + u, ";" + v);
      SameHead(";", u, v);
    case Number(x) =>
      FormatIsPlain(p, x);
      FormatIsPlain(p, b.number);
      PlainSplits(p.format(x), p.format(b.number), u, v);
    case Code(n) =>
      FormatIsPlain(p, Float(n));
      FormatIsPlain(p, Float(b.code));
      PlainSplits(p.format(Float(n)), p.format(Float(b.code)), u, v);
    case Size(q) =>
      SizeTextIsPlain(p, q);
      SizeTextIsPlain(p, b.size);
      PlainSplits(SizeText(p, q), SizeText(p, b.size), u, v);
      SizeTextsDiffer(p, q, b.size);
  }

  predicate AllRepresentable(p: Platform, fields: seq<Field>) {
    forall i :: 0 <= i < |fields| ==> Representable(p, fields[i].value)
  }

  /** The two lists name the same fields in the same order, of the same kinds. */
  predicate SameShape(a: seq<Field>, b: seq<Field>) {
    |a| == |b| && forall i :: 0 <= i < |a| ==> a[i].name == b[i].name && SameKind(a[i].value, b[i].value)
  }

  lemma FirstFieldLeads(p: Platform, a: seq<Field>, u: string)
    requires a != []
    ensures Render(p, a) + u == (a[0].name + "=") + (ValueText(p, a[0].value) + ";" + (Render(p, a[1..]) + u))
  {
  }

  /** Two renderings of one shape are equal only when every value is, and what
      follows them is then equal too. */
  lemma {:induction false} RenderingsReadBack(p: Platform, a: seq<Field>, b: seq<Field>, u: string, v: string)
    requires p.LawfulFormat() && SameShape(a, b) && AllRepresentable(p, a) && AllRepresentable(p, b)
    requires Render(p, a) + u == Render(p, b) + v
    ensures a == b && u == v
  {
    hide ValueText, SameKind, Representable;
    if a == [] {
      assert Render(p, a) + u == u && Render(p, b) + v == v;
    } else {
      var fa, fb := a[0], b[0];
      var ra, rb := Render(p, a[1..]) + u, Render(p, b[1..]) + v;
      FirstFieldLeads(p, a, u);
      FirstFieldLeads(p, b, v);
      SameHead(fa.name + "=", ValueText(p, fa.value) + ";" + ra, ValueText(p, fb.value) + ";" + rb);
      ValuesSplit(p, fa.value, fb.value, ra, rb);
      RenderingsReadBack(p, a[1..], b[1..], u, v);
      assert a == [fa] + a[1..] && b == [fb] + b[1..];
    }
  }
}
