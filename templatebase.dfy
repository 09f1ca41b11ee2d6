/** The template chain (chain/templatebase.py): `template.format(*inputs)`,
    an out-of-range placeholder turned into an error record, and the same
    output dictionary and callback handling as the simple chain.

    `str.format` is modelled on the part of its grammar the layer uses,
    read left to right as CPython reads it: literal text, the escapes `{{`
    and `}}`, and replacement fields `{}` (automatic numbering), `{n}` with
    decimal `n` (manual numbering) and `{name}` (a keyword, never supplied
    here). A conversion after `!` and a spec after `:` are read, to find
    where the field ends, but not applied. */
module TemplateBase {
  import opened Dicts
  import opened Python
  import opened SimpleBase

  /** Which numbering the fields seen so far have used. */
  datatype Numbering = NoFields | Automatic(next: nat) | Manual

  /** What `template.format(*inputs)` does: return the text, raise
      `IndexError` for the field index given, or raise another exception. */
  datatype FormatResult = Formatted(text: string) | IndexOutOfRange(index: nat) | FormatFailure(error: Exception)

  /** Literal output produced before the rest of the formatting. */
  function Prepend(s: string, r: FormatResult): (p: FormatResult)
    ensures r.Formatted? ==> p == Formatted(s + r.text)
    ensures !r.Formatted? ==> p == r
  {
    if r.Formatted? then Formatted(s + r.text) else r
  }

  lemma PrependPrepend(a: string, b: string, r: FormatResult)
    ensures Prepend(a, Prepend(b, r)) == Prepend(a + b, r)
  {
    if r.Formatted? {
      AppendAssociative(a, b, r.text);
    }
  }

  predicate IsDigit(c: char) {
    '0' <= c <= '9'
  }

  predicate AllDigits(s: string) {
    forall i | 0 <= i < |s| :: IsDigit(s[i])
  }

  /** The longest prefix of `s` made of decimal digits. */
  function DigitRun(s: string): (r: string)
    ensures r <= s && AllDigits(r)
    ensures |r| < |s| ==> !IsDigit(s[|r|])
    ensures AllDigits(s) ==> r == s
  {
    if s == [] || !IsDigit(s[0]) then [] else [s[0]] + DigitRun(s[1..])
  }

  /** The number a string of decimal digits denotes. */
  function DecimalValue(s: string): nat
    requires AllDigits(s)
  {
    if s == [] then 0 else DecimalValue(s[..|s| - 1]) * 10 + (s[|s| - 1] as int - '0' as int)
  }

  /** The first `]` at or after `j`, or `|t|`: the end of an index in a
      field name. */
  function BracketEnd(t: string, j: nat): (e: nat)
    requires j <= |t|
    ensures j <= e <= |t|
    ensures e < |t| ==> t[e] == ']'
    ensures forall k | j <= k < e :: t[k] != ']'
    decreases |t| - j
  {
    if j == |t| || t[j] == ']' then j else BracketEnd(t, j + 1)
  }

  predicate NameStop(c: char) {
    c == '}' || c == ':' || c == '!' || c == '{'
  }

  /** Where the scan of a field name from `j` stops: the first `}`, `:`,
      `!` or `{` outside square brackets, or `|t|`. Text up to the next
      `]` after a `[` is skipped whatever it holds. */
  function NameEnd(t: string, j: nat): (n: nat)
    requires j <= |t|
    ensures j <= n <= |t|
    ensures n < |t| ==> NameStop(t[n])
    decreases |t| - j
  {
    if j == |t| || NameStop(t[j]) then j
    else if t[j] == '[' then NameEnd(t, BracketEnd(t, j + 1))
    else NameEnd(t, j + 1)
  }

  /** Before a `[`, the name scan passes no stop character. */
  lemma {:induction false} NameEndFirst(t: string, j: nat)
    requires j <= |t|
    ensures var n := NameEnd(t, j);
            (forall k | j <= k < n :: t[k] != '[') ==> forall k | j <= k < n :: !NameStop(t[k])
    decreases |t| - j
  {
    if j < |t| && !NameStop(t[j]) && t[j] != '[' {
      NameEndFirst(t, j + 1);
    }
  }

  /** The index of the `}` that closes a format spec read from `j`, with
      `depth` braces open; `|t|` when the string ends first. */
  function SpecEnd(t: string, j: nat, depth: nat): (e: nat)
    requires j <= |t| && depth >= 1
    ensures j <= e <= |t|
    ensures e < |t| ==> t[e] == '}'
    decreases |t| - j
  {
    if j == |t| then |t|
    else if t[j] == '}' then (if depth == 1 then j else SpecEnd(t, j + 1, depth - 1))
    else if t[j] == '{' then SpecEnd(t, j + 1, depth + 1)
    else SpecEnd(t, j + 1, depth)
  }

  /** The ways a replacement field can be malformed. */
  datatype FieldError = UnclosedField | OpenInName | NoConversion | UnclosedSpec | NoColonAfterConversion

  /** How a replacement field reads: where its name ends and where the
      text after its closing `}` starts, or why it is not well formed. */
  datatype FieldScan = Field(nameEnd: nat, after: nat) | Malformed(error: FieldError)

  /** CPython's message for each. */
  function FieldMessage(e: FieldError): string {
    match e
    case UnclosedField => "expected '}' before end of string"
    case OpenInName => "unexpected '{' in field name"
    case NoConversion => "end of string while looking for conversion specifier"
    case UnclosedSpec => "unmatched '{' in format spec"
    case NoColonAfterConversion => "expected ':' after conversion specifier"
  }

  /** A format spec from `k` to its matching `}`, after a name ending at
      `n`. */
  function Spec(t: string, n: nat, k: nat): (f: FieldScan)
    requires n < k <= |t|
    ensures f.Field? ==> f.nameEnd == n && k < f.after <= |t| && t[f.after - 1] == '}'
    ensures f.Malformed? ==> f == Malformed(UnclosedSpec)
  {
    var e := SpecEnd(t, k, 1);
    if e == |t| then Malformed(UnclosedSpec) else Field(n, e + 1)
  }

  /** The field at the start of `s`, just after its `{`, read as CPython's `parse_field`
      reads it: the name runs to the first `}`, `:` or `!`, and a `{` there
      is refused; after `!` comes one conversion character and then `}` or
      `:`; after `:` the spec runs to the `}` that balances the braces
      opened inside it. */
  function ReadField(s: string): (f: FieldScan)
    ensures f.Field? ==> f.nameEnd == NameEnd(s, 0) && f.nameEnd < f.after <= |s| && s[f.after - 1] == '}'
    ensures NameEnd(s, 0) == |s| ==> f == Malformed(UnclosedField)
    ensures NameEnd(s, 0) < |s| && s[NameEnd(s, 0)] == '{' ==> f == Malformed(OpenInName)
    ensures NameEnd(s, 0) < |s| && s[NameEnd(s, 0)] == '}' ==> f == Field(NameEnd(s, 0), NameEnd(s, 0) + 1)
  {
    var n := NameEnd(s, 0);
    if n == |s| then Malformed(UnclosedField)
    else if s[n] == '{' then Malformed(OpenInName)
    else if s[n] == '}' then Field(n, n + 1)
    else if s[n] == ':' then Spec(s, n, n + 1)
    else if n + 1 == |s| then Malformed(NoConversion)
    else if n + 2 == |s| then Malformed(UnclosedSpec)
    else if s[n + 2] == '}' then Field(n, n + 3)
    else if s[n + 2] != ':' then Malformed(NoColonAfterConversion)
    else Spec(s, n, n + 3)
  }

  /** The field whose name starts at `j` in `t`, with its positions in `t`. */
  function ParseField(t: string, j: nat): (f: FieldScan)
    requires j <= |t|
    ensures f.Field? ==> j <= f.nameEnd < f.after <= |t| && t[f.after - 1] == '}'
  {
    var s := t[j..];
    match ReadField(s)
    case Malformed(e) => Malformed(e)
    case Field(n, after) =>
      assert t[j + after - 1] == s[after - 1];
      Field(j + n, j + after)
  }

  /** What looking up a field name gives. */
  datatype Lookup = Found(text: string, next: Numbering) | Missing(index: nat) | Refused(error: Exception)

  function Pick(k: nat, args: seq<string>, next: Numbering): Lookup {
    if k < |args| then Found(args[k], next) else Missing(k)
  }

  /** The largest index `str.format` accepts: PY_SSIZE_T_MAX on a 64-bit
      build. */
  const MaxIndex: nat := 0x7fff_ffff_ffff_ffff

  const TooManyDigits := "Too many decimal digits in format string"

  /** A field name against the positional arguments: empty names count
      up, digit strings name an index, and the two numberings may not be
      mixed; a name whose leading digits exceed `MaxIndex` is refused
      before the numbering is looked at, as the digits are read before the
      first non-digit; any other name is a keyword, and there are none. */
  function LookUp(name: string, args: seq<string>, numbering: Numbering): (r: Lookup)
    ensures r.Missing? ==> r.index >= |args|
    ensures r.Found? ==> r.text in args
  {
    if name == "" then
      match numbering
      case Manual => Refused(ValueError("cannot switch from manual field specification to automatic field numbering"))
      case NoFields => Pick(0, args, Automatic(1))
      case Automatic(k) => Pick(k, args, Automatic(k + 1))
    else if DecimalValue(DigitRun(name)) > MaxIndex then Refused(ValueError(TooManyDigits))
    else if AllDigits(name) then
      if numbering.Automatic? then
        Refused(ValueError("cannot switch from automatic field numbering to manual field specification"))
      else Pick(DecimalValue(name), args, Manual)
    else Refused(KeyError(name))
  }

  /** A digit name: too large an index is refused whatever the numbering;
      otherwise, outside automatic numbering, it picks that argument or is
      missing, and from then on the numbering is manual. */
  lemma LookUpIndex(name: string, args: seq<string>, numbering: Numbering)
    requires name != "" && AllDigits(name)
    ensures DecimalValue(name) > MaxIndex ==> LookUp(name, args, numbering) == Refused(ValueError(TooManyDigits))
    ensures DecimalValue(name) <= MaxIndex && numbering.Automatic? ==> LookUp(name, args, numbering).Refused?
    ensures var v := DecimalValue(name);
            v <= MaxIndex && !numbering.Automatic? ==>
              LookUp(name, args, numbering) == if v < |args| then Found(args[v], Manual) else Missing(v)
  {
  }

  /** A name that is not all digits: too many leading digits are refused
      with `ValueError`, and otherwise the name is a keyword, which no
      call supplies. */
  lemma LookUpKeyword(name: string, args: seq<string>, numbering: Numbering)
    requires !AllDigits(name)
    ensures DecimalValue(DigitRun(name)) > MaxIndex ==> LookUp(name, args, numbering) == Refused(ValueError(TooManyDigits))
    ensures DecimalValue(DigitRun(name)) <= MaxIndex ==> LookUp(name, args, numbering) == Refused(KeyError(name))
  {
  }

  /** `t[i..].format(*args)` given the numbering used so far. */
  function FormatFrom(t: string, i: nat, args: seq<string>, numbering: Numbering): FormatResult
    requires i <= |t|
    decreases |t| - i, 1
  {
    if i == |t| then Formatted("")
    else if t[i] == '}' then
      if i + 1 < |t| && t[i + 1] == '}' then Prepend("}", FormatFrom(t, i + 2, args, numbering))
      else FormatFailure(ValueError("Single '}' encountered in format string"))
    else if t[i] == '{' then
      if i + 1 == |t| then FormatFailure(ValueError("Single '{' encountered in format string"))
      else if t[i + 1] == '{' then Prepend("{", FormatFrom(t, i + 2, args, numbering))
      else FormatField(t, i, args, numbering)
    else Prepend([t[i]], FormatFrom(t, i + 1, args, numbering))
  }

  /** The replacement field opened by the `{` at `i`, then the rest. */
  function FormatField(t: string, i: nat, args: seq<string>, numbering: Numbering): FormatResult
    requires i + 1 < |t|
    decreases |t| - i, 0
  {
    match ParseField(t, i + 1)
    case Malformed(e) => FormatFailure(ValueError(FieldMessage(e)))
    case Field(n, after) =>
      match LookUp(t[i + 1..n], args, numbering)
      case Found(s, next) => Prepend(s, FormatFrom(t, after, args, next))
      case Missing(k) => IndexOutOfRange(k)
      case Refused(e) => FormatFailure(e)
  }

  /** `template.format(*args)` */
  function Format(t: string, args: seq<string>): FormatResult {
    FormatFrom(t, 0, args, NoFields)
  }

  /** No brace in `t[i..j]`. */
  predicate BraceFree(t: string, i: nat, j: nat)
    requires i <= j <= |t|
    decreases j - i
  {
    i == j || (t[i] != '{' && t[i] != '}' && BraceFree(t, i + 1, j))
  }

  /** Text without braces is copied through unchanged. */
  lemma {:induction false} LiteralRun(t: string, i: nat, j: nat, args: seq<string>, numbering: Numbering)
    requires i <= j <= |t| && BraceFree(t, i, j)
    ensures FormatFrom(t, i, args, numbering) == Prepend(t[i..j], FormatFrom(t, j, args, numbering))
    decreases j - i
  {
    if i == j {
      assert t[i..j] == [];
      var r := FormatFrom(t, j, args, numbering);
      if r.Formatted? {
        assert [] + r.text == r.text;
      }
    } else {
      LiteralRun(t, i + 1, j, args, numbering);
      PrependPrepend([t[i]], t[i + 1..j], FormatFrom(t, j, args, numbering));
      assert [t[i]] + t[i + 1..j] == t[i..j];
    }
  }

  /** `BraceFree` holds exactly when no position in the range holds a
      brace. */
  lemma {:induction false} BraceFreeOf(t: string, i: nat, j: nat)
    requires i <= j <= |t|
    requires forall k | i <= k < j :: t[k] != '{' && t[k] != '}'
    ensures BraceFree(t, i, j)
    decreases j - i
  {
    if i < j {
      BraceFreeOf(t, i + 1, j);
    }
  }

  lemma {:induction false} BraceFreeChars(t: string, i: nat, j: nat)
    requires i <= j <= |t| && BraceFree(t, i, j)
    ensures forall k | i <= k < j :: t[k] != '{' && t[k] != '}'
    decreases j - i
  {
    if i < j {
      BraceFreeChars(t, i + 1, j);
    }
  }

  /** The same, for a run whose characters are known one by one. */
  lemma PlainRun(t: string, i: nat, j: nat, args: seq<string>, numbering: Numbering)
    requires i <= j <= |t|
    requires forall k | i <= k < j :: t[k] != '{' && t[k] != '}'
    ensures FormatFrom(t, i, args, numbering) == Prepend(t[i..j], FormatFrom(t, j, args, numbering))
  {
    BraceFreeOf(t, i, j);
    LiteralRun(t, i, j, args, numbering);
  }

  /** Equal suffixes hold equal characters. */
  lemma CharShift(t: string, i: nat, u: string, j: nat, k: nat)
    requires i <= k < |t| && j <= |u| && t[i..] == u[j..]
    ensures j + k - i < |u| && t[k] == u[j + k - i]
  {
    assert |t[i..]| == |u[j..]|;
    assert t[k] == t[i..][k - i] && u[j + k - i] == u[j..][k - i];
  }

  /** How a field reads depends only on the text from its name on. */
  lemma ParseFieldShift(t: string, i: nat, u: string, j: nat)
    requires i <= |t| && j <= |u| && t[i..] == u[j..]
    ensures var f, f' := ParseField(t, i), ParseField(u, j);
            (f.Malformed? ==> f == f')
            && (f.Field? ==> f'.Field? && f.nameEnd - i == f'.nameEnd - j && f.after - i == f'.after - j)
  {
  }

  /** Formatting from a position depends only on the text from there on. */
  lemma {:induction false} FormatFromShift(t: string, i: nat, u: string, j: nat, args: seq<string>, numbering: Numbering)
    requires i <= |t| && j <= |u| && t[i..] == u[j..]
    ensures FormatFrom(t, i, args, numbering) == FormatFrom(u, j, args, numbering)
    decreases |t| - i, 1
  {
    if i < |t| {
      assert t[i] == t[i..][0] == u[j..][0] == u[j];
      assert t[i + 1..] == t[i..][1..] == u[j..][1..] == u[j + 1..];
      if i + 1 < |t| {
        assert t[i + 1] == t[i + 1..][0] == u[j + 1..][0] == u[j + 1];
        assert t[i + 2..] == t[i + 1..][1..] == u[j + 1..][1..] == u[j + 2..];
      }
      if t[i] == '}' {
        if i + 1 < |t| && t[i + 1] == '}' {
          FormatFromShift(t, i + 2, u, j + 2, args, numbering);
        }
      } else if t[i] == '{' {
        if i + 1 < |t| {
          if t[i + 1] == '{' {
            FormatFromShift(t, i + 2, u, j + 2, args, numbering);
          } else {
            FieldShift(t, i, u, j, args, numbering);
          }
        }
      } else {
        FormatFromShift(t, i + 1, u, j + 1, args, numbering);
      }
    }
  }

  /** The replacement-field case of `FormatFromShift`. */
  lemma {:induction false} FieldShift(t: string, i: nat, u: string, j: nat, args: seq<string>, numbering: Numbering)
    requires i + 1 < |t| && j <= |u| && t[i..] == u[j..]
    requires t[i] == '{' && t[i + 1] != '{'
    ensures j + 1 < |u| && u[j] == '{' && u[j + 1] != '{'
    ensures FormatField(t, i, args, numbering) == FormatField(u, j, args, numbering)
    decreases |t| - i, 0
  {
    FieldParts(t, i, u, j);
    var f, f' := ParseField(t, i + 1), ParseField(u, j + 1);
    if f.Field? {
      var look := LookUp(t[i + 1..f.nameEnd], args, numbering);
      if look.Found? {
        FormatFromShift(t, f.after, u, f'.after, args, look.next);
      }
    }
    SameField(t, i, u, j, args, numbering);
  }

  /** Two fields that read alike, and whose continuations agree, format
      alike. */
  lemma SameField(t: string, i: nat, u: string, j: nat, args: seq<string>, numbering: Numbering)
    requires i + 1 < |t| && j + 1 < |u|
    requires var f, f' := ParseField(t, i + 1), ParseField(u, j + 1);
             (f.Malformed? ==> f == f')
             && (f.Field? ==>
                   f'.Field? && t[i + 1..f.nameEnd] == u[j + 1..f'.nameEnd]
                   && (LookUp(t[i + 1..f.nameEnd], args, numbering).Found? ==>
                         var next := LookUp(t[i + 1..f.nameEnd], args, numbering).next;
                         FormatFrom(t, f.after, args, next) == FormatFrom(u, f'.after, args, next)))
    ensures FormatField(t, i, args, numbering) == FormatField(u, j, args, numbering)
  {
    var f, f' := ParseField(t, i + 1), ParseField(u, j + 1);
    if f.Field? {
      var look := LookUp(t[i + 1..f.nameEnd], args, numbering);
      assert look == LookUp(u[j + 1..f'.nameEnd], args, numbering);
      if look.Found? {
        var rest := FormatFrom(t, f.after, args, look.next);
        assert FormatField(t, i, args, numbering) == Prepend(look.text, rest);
      }
    }
  }

  /** The reading of a replacement field depends only on the text from its
      opening brace on. */
  lemma FieldParts(t: string, i: nat, u: string, j: nat)
    requires i + 1 < |t| && j <= |u| && t[i..] == u[j..]
    ensures j + 1 < |u| && u[j] == t[i] && u[j + 1] == t[i + 1]
    ensures var f, f' := ParseField(t, i + 1), ParseField(u, j + 1);
            (f.Malformed? ==> f == f')
            && (f.Field? ==>
                  f'.Field? && t[i + 1..f.nameEnd] == u[j + 1..f'.nameEnd]
                  && f.after - i == f'.after - j && t[f.after..] == u[f'.after..])
  {
    CharShift(t, i, u, j, i);
    CharShift(t, i, u, j, i + 1);
    SuffixShift(t, i, u, j, i + 1);
    ParseFieldShift(t, i + 1, u, j + 1);
    var f := ParseField(t, i + 1);
    if f.Field? {
      SliceShift(t, i, u, j, i + 1, f.nameEnd);
      SuffixShift(t, i, u, j, f.after);
    }
  }

  /** Equal suffixes have equal later suffixes. */
  lemma SuffixShift(t: string, i: nat, u: string, j: nat, a: nat)
    requires i <= a <= |t| && j <= |u| && t[i..] == u[j..]
    ensures j + a - i <= |u| && t[a..] == u[j + a - i..]
  {
    assert t[a..] == t[i..][a - i..];
    assert u[j + a - i..] == u[j..][a - i..];
  }

  /** Equal suffixes have equal slices. */
  lemma SliceShift(t: string, i: nat, u: string, j: nat, a: nat, b: nat)
    requires i <= |t| && j <= |u| && t[i..] == u[j..] && i <= a <= b <= |t|
    ensures j + b - i <= |u| && t[a..b] == u[j + a - i..j + b - i]
  {
    assert |t[i..]| == |u[j..]|;
    forall k | a <= k < b
      ensures t[k] == u[j + k - i]
    {
      assert t[k] == t[i..][k - i] && u[j + k - i] == u[j..][k - i];
    }
  }

  /** A brace-free prefix is copied through, and the rest is formatted on
      its own. */
  lemma PlainPrefix(p: string, rest: string, args: seq<string>, numbering: Numbering)
    requires '{' !in p && '}' !in p
    ensures FormatFrom(p + rest, 0, args, numbering) == Prepend(p, FormatFrom(rest, 0, args, numbering))
  {
    var t := p + rest;
    forall k | 0 <= k < |p| ensures t[k] != '{' && t[k] != '}' {
      assert t[k] == p[k];
    }
    PlainRun(t, 0, |p|, args, numbering);
    assert t[0..|p|] == p;
    assert t[|p|..] == rest[0..];
    FormatFromShift(t, |p|, rest, 0, args, numbering);
  }

  /** `{{` stands for a literal `{`. */
  lemma EscapedOpen(t: string, i: nat, args: seq<string>, numbering: Numbering)
    requires i + 1 < |t| && t[i] == '{' && t[i + 1] == '{'
    ensures FormatFrom(t, i, args, numbering) == Prepend("{", FormatFrom(t, i + 2, args, numbering))
  {
  }

  /** A `}` not followed by another is refused. */
  lemma LoneClose(t: string, i: nat, args: seq<string>, numbering: Numbering)
    requires i < |t| && t[i] == '}' && (i + 1 == |t| || t[i + 1] != '}')
    ensures FormatFrom(t, i, args, numbering) == FormatFailure(ValueError("Single '}' encountered in format string"))
  {
  }

  /** `{n}` with decimal `n`, outside automatic numbering: the `n`-th
      argument, or `IndexError` when there is none. */
  lemma {:induction false} PositionalField(t: string, i: nat, j: nat, args: seq<string>, numbering: Numbering)
    requires i + 1 < j < |t| && t[i] == '{' && t[j] == '}'
    requires AllDigits(t[i + 1..j]) && !numbering.Automatic?
    ensures var v := DecimalValue(t[i + 1..j]);
            FormatFrom(t, i, args, numbering) ==
              if v > MaxIndex then FormatFailure(ValueError(TooManyDigits))
              else if v < |args| then Prepend(args[v], FormatFrom(t, j + 1, args, Manual))
              else IndexOutOfRange(v)
  {
    var s := t[i + 1..];
    assert s[..j - i - 1] == t[i + 1..j] && s[j - i - 1] == '}';
    NameEndOfDigits(s, 0, j - i - 1);
    assert ParseField(t, i + 1) == Field(j, j + 1);
    LookUpIndex(t[i + 1..j], args, numbering);
  }

  lemma {:induction false} NameEndOfDigits(t: string, k: nat, j: nat)
    requires k <= j < |t| && t[j] == '}' && AllDigits(t[k..j])
    ensures NameEnd(t, k) == j
    decreases j - k
  {
    if k < j {
      assert IsDigit(t[k..j][0]);
      assert t[k + 1..j] == t[k..j][1..];
      NameEndOfDigits(t, k + 1, j);
    }
  }

  /** Doubling every brace of `s`. */
  function Escape(s: string): string {
    if s == [] then []
    else (if s[0] == '{' then "{{" else if s[0] == '}' then "}}" else [s[0]]) + Escape(s[1..])
  }

  /** Doubled braces format back to single ones, whatever the arguments:
      a text with its braces escaped comes out of `format` as itself. */
  lemma EscapeRoundTrip(s: string, args: seq<string>)
    ensures Format(Escape(s), args) == Formatted(s)
  {
    EscapedSuffix(s, Escape(s), 0, args, NoFields);
  }

  lemma {:induction false} EscapedSuffix(s: string, t: string, i: nat, args: seq<string>, numbering: Numbering)
    requires i <= |t| && t[i..] == Escape(s)
    ensures FormatFrom(t, i, args, numbering) == Formatted(s)
    decreases s
  {
    if s == [] {
      assert |t[i..]| == 0;
    } else {
      var w := if s[0] == '{' then "{{" else if s[0] == '}' then "}}" else [s[0]];
      assert t[i..] == w + Escape(s[1..]);
      assert t[i] == w[0];
      assert t[i + |w|..] == Escape(s[1..]);
      if |w| == 2 {
        assert t[i + 1] == w[1];
      }
      EscapedSuffix(s[1..], t, i + |w|, args, numbering);
      assert [s[0]] + s[1..] == s;
    }
  }

  // The chain itself.

  const MismatchMessage := "Mismatch between placeholders and inputs."

  /** TemplateChain, with its defaults: callback "to_json", no memory. */
  datatype TemplateChain = TemplateChain(templatePrompt: string, inputs: seq<string>,
                                         callback: Callback := Named("to_json"), memory: Option<string> := None)

  /** The dictionary handed to the callback: the built prompt and the text
      generated from it and the memory. */
  function ChainOutput(builtPrompt: string, memory: Option<string>): (d: PyDict<Value>)
    ensures d.Valid() && d.keys == ["built_prompt", "generated_code"]
    ensures GetKey(d, "built_prompt") == Str(builtPrompt)
    ensures GetKey(d, "generated_code") == Str(GeneratePrompt(builtPrompt, memory))
  {
    PairRecord("built_prompt", builtPrompt, "generated_code", GeneratePrompt(builtPrompt, memory))
  }

  /** execute_chain: only `IndexError` from `format` is caught. */
  function ExecuteChain(chain: TemplateChain, dumps: PyDict<Value> -> string): (r: Outcome<Value>)
    ensures Format(chain.templatePrompt, chain.inputs).IndexOutOfRange? ==> r == Returned(ErrorRecord(MismatchMessage))
    ensures Format(chain.templatePrompt, chain.inputs).FormatFailure? ==>
              r == Raised(Format(chain.templatePrompt, chain.inputs).error)
    ensures Format(chain.templatePrompt, chain.inputs).Formatted? ==>
              r == ApplyCallback(chain.callback, ChainOutput(Format(chain.templatePrompt, chain.inputs).text, chain.memory), dumps)
  {
    match Format(chain.templatePrompt, chain.inputs)
    case IndexOutOfRange(_) => Returned(ErrorRecord(MismatchMessage))
    case FormatFailure(e) => Raised(e)
    case Formatted(builtPrompt) =>
      var generatedCode := GeneratePrompt(builtPrompt, chain.memory);
      var output := PairRecord("built_prompt", builtPrompt, "generated_code", generatedCode);
      ApplyCallback(chain.callback, output, dumps)
  }

  /** A template whose first field is `{n}` with `n` at least the number
      of inputs reports the mismatch, and nothing is generated; an `n` too
      large for an index raises `ValueError` instead, which the chain does
      not catch. */
  lemma {:induction false} FirstFieldOutOfRange(chain: TemplateChain, i: nat, j: nat, dumps: PyDict<Value> -> string)
    requires i + 1 < j < |chain.templatePrompt|
    requires chain.templatePrompt[i] == '{' && chain.templatePrompt[j] == '}'
    requires BraceFree(chain.templatePrompt, 0, i)
    requires AllDigits(chain.templatePrompt[i + 1..j])
    requires DecimalValue(chain.templatePrompt[i + 1..j]) >= |chain.inputs|
    ensures ExecuteChain(chain, dumps) ==
              if DecimalValue(chain.templatePrompt[i + 1..j]) <= MaxIndex then Returned(ErrorRecord(MismatchMessage))
              else Raised(ValueError(TooManyDigits))
  {
    var t := chain.templatePrompt;
    LiteralRun(t, 0, i, chain.inputs, NoFields);
    PositionalField(t, i, j, chain.inputs, NoFields);
  }

  /** Without a callback the chain returns the output dictionary itself. */
  lemma ChainWithoutCallback(chain: TemplateChain, dumps: PyDict<Value> -> string)
    requires chain.callback == NoCallback && Format(chain.templatePrompt, chain.inputs).Formatted?
    ensures var built := Format(chain.templatePrompt, chain.inputs).text;
            ExecuteChain(chain, dumps) == Returned(Dict(ChainOutput(built, chain.memory)))
  {
  }

  /** A `{` inside a field name is refused, not counted as nesting. */
  lemma OpenBraceInName()
    ensures Format("{a{", []) == FormatFailure(ValueError("unexpected '{' in field name"))
  {
    var t := "{a{";
    assert t[1..][0] == 'a' && t[1..][1] == '{';
    assert NameEnd(t[1..], 0) == 1;
  }

  /** A spec whose braces do not balance is refused. */
  lemma UnbalancedSpec()
    ensures Format("{0:{}", ["x"]) == FormatFailure(ValueError("unmatched '{' in format spec"))
  {
    var t := "{0:{}";
    var s := t[1..];
    assert s == "0:{}";
    assert NameEnd(s, 0) == 1;
    assert SpecEnd(s, 2, 1) == 4;
  }

  /** "Hello {0}" with the input "World". */
  lemma HelloWorld()
    ensures Format("Hello {0}", ["World"]) == Formatted("Hello World")
  {
    var field := "{0}";
    assert "Hello {0}" == "Hello " + field;
    PlainPrefix("Hello ", field, ["World"], NoFields);
    assert field[1..2] == "0";
    PositionalField(field, 0, 2, ["World"], NoFields);
  }

}
