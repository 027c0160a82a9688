/** What a log pattern means: its tokens, the texts that print as a token list, and the items built from
    the tokens. */
module PatternSpec {

  // ---------------------------------------------------------------- tokens

  datatype Token = Literal(text: string) | Directive(key: string, fmt: string)

  /** `broken`: a brace was never closed. */
  datatype Parsed = Parsed(tokens: seq<Token>, broken: bool)

  const PATTERN_ERROR: string := "<<pattern_error>>"

  /** `isalpha` in the C locale. */
  predicate IsAlpha(c: char) { 'a' <= c <= 'z' || 'A' <= c <= 'Z' }

  /** What the scanner walks over while it looks for the end of a key. */
  predicate InKey(c: char) { IsAlpha(c) || c == '}' }

  /** How many characters of `s` belong to the key. */
  function KeyLen(s: string): (n: nat)
    ensures n <= |s| && (forall j :: 0 <= j < n ==> InKey(s[j])) && (n < |s| ==> !InKey(s[n]))
  {
    if s == "" || !InKey(s[0]) then 0 else 1 + KeyLen(s[1..])
  }

  /** The position of the first closing brace, or the length. */
  function Close(s: string): (n: nat)
    ensures n <= |s| && (forall j :: 0 <= j < n ==> s[j] != '}') && (n < |s| ==> s[n] == '}')
  {
    if s == "" || s[0] == '}' then 0 else 1 + Close(s[1..])
  }

  lemma CloseAt(s: string, n: nat)
    requires n < |s| && s[n] == '}' && forall j :: 0 <= j < n ==> s[j] != '}'
    ensures Close(s) == n
  {}

  /** A directive at the start of `s` and its length, or an unclosed brace. */
  datatype Found = Found(token: Token, len: nat) | Unclosed

  function FindDirective(s: string): (r: Found)
    requires s != "" && s[0] == '%'
    ensures r.Found? ==> 0 < r.len <= |s|
  {
    var k := 1 + KeyLen(s[1..]);
    if k == |s| || s[k] != '{' then Found(Directive(s[1..k], ""), k)
    else
      var c := k + 1 + Close(s[k + 1..]);
      if c == |s| then Unclosed else Found(Directive(s[1..k], s[k + 1..c]), c + 1)
  }

  function Flush(nstr: string): seq<Token> {
    if nstr == "" then [] else [Literal(nstr)]
  }

  /** The tokens of `s` when the characters of `nstr` are waiting to become a literal. */
  function Parse(s: string, nstr: string): Parsed
    decreases |s|
  {
    if s == "" then Parsed(Flush(nstr), false)
    else if s[0] != '%' then Parse(s[1..], nstr + [s[0]])
    else if |s| > 1 && s[1] == '%' then Parse(s[1..], nstr + "%")
    else match FindDirective(s)
      case Found(t, len) =>
        var rest := Parse(s[len..], "");
        Parsed(Flush(nstr) + [t] + rest.tokens, rest.broken)
      case Unclosed => Parsed([Literal(PATTERN_ERROR)] + Parse(s[1..], nstr).tokens, true)
  }

  // ---------------------------------------------------------------- printing

  /** `%key` would swallow what follows it. */
  predicate Swallows(rest: string) { rest != "" && (InKey(rest[0]) || rest[0] == '{') }

  /** `text`, standing before `rest`, spells the token. */
  predicate Spells(text: string, t: Token, rest: string) {
    match t
    case Literal(l) => text == l
    case Directive(key, fmt) =>
      || text == "%" + key + "{" + fmt + "}"
      || (text == "%" + key && fmt == "" && !Swallows(rest))
  }

  /** `p` is the tokens' texts, one after the other, with nothing left over. */
  ghost predicate Prints(ts: seq<Token>, p: string)
    decreases |ts|
  {
    if ts == [] then p == ""
    else exists n :: 0 <= n <= |p| && Spells(p[..n], ts[0], p[n..]) && Prints(ts[1..], p[n..])
  }

  lemma PrintsNothing(p: string)
    ensures Prints([], p) <==> p == ""
  {}

  lemma PrintsFirst(ts: seq<Token>, p: string) returns (text: string, rest: string)
    requires ts != [] && Prints(ts, p)
    ensures p == text + rest && Spells(text, ts[0], rest) && Prints(ts[1..], rest)
  {
    var n :| 0 <= n <= |p| && Spells(p[..n], ts[0], p[n..]) && Prints(ts[1..], p[n..]);
    text, rest := p[..n], p[n..];
  }

  lemma PrintsMore(t: Token, text: string, ts: seq<Token>, rest: string)
    requires Spells(text, t, rest) && Prints(ts, rest)
    ensures Prints([t] + ts, text + rest)
  {
    var p, all := text + rest, [t] + ts;
    assert p[..|text|] == text && p[|text|..] == rest && all[1..] == ts;
    assert Spells(p[..|text|], all[0], p[|text|..]);
  }

  /** The shortest way to print a token before `rest`. */
  function Show(t: Token, rest: string): string {
    match t
    case Literal(l) => l
    case Directive(key, fmt) =>
      if fmt == "" && !Swallows(rest) then "%" + key else "%" + key + "{" + fmt + "}"
  }

  function Print(ts: seq<Token>): string {
    if ts == [] then "" else Show(ts[0], Print(ts[1..])) + Print(ts[1..])
  }

  lemma {:induction false} PrintPrints(ts: seq<Token>)
    ensures Prints(ts, Print(ts))
  {
    hide Prints, Spells;
    if ts == [] {
      PrintsNothing("");
    } else {
      PrintPrints(ts[1..]);
      ShowSpells(ts[0], Print(ts[1..]));
      PrintsMore(ts[0], Show(ts[0], Print(ts[1..])), ts[1..], Print(ts[1..]));
      assert ts == [ts[0]] + ts[1..];
    }
  }

  lemma ShowSpells(t: Token, rest: string)
    ensures Spells(Show(t, rest), t, rest)
  {}

  // ---------------------------------------------------------------- token lists in normal form

  predicate Plain(l: string) { l != "" && '%' !in l }

  predicate Proper(t: Token) {
    match t
    case Literal(l) => Plain(l)
    case Directive(key, fmt) => key != "" && (forall j :: 0 <= j < |key| ==> IsAlpha(key[j])) && '}' !in fmt
  }

  /** Non-empty literals without `%`, no two adjacent; alphabetic keys; formats without `}`. */
  predicate Normal(ts: seq<Token>) {
    && (forall n :: 0 <= n < |ts| ==> Proper(ts[n]))
    && (forall n :: 0 <= n < |ts| - 1 && ts[n].Literal? ==> ts[n + 1].Directive?)
  }

  // ---------------------------------------------------------------- parsing undoes printing

  lemma {:induction false} KeyLenIs(key: string, rest: string)
    requires forall j :: 0 <= j < |key| ==> IsAlpha(key[j])
    requires rest == "" || !InKey(rest[0])
    ensures KeyLen(key + rest) == |key|
  {
    if key != "" {
      assert (key + rest)[1..] == key[1..] + rest;
      KeyLenIs(key[1..], rest);
    } else {
      assert key + rest == rest;
    }
  }

  lemma {:induction false} CloseIs(fmt: string, rest: string)
    requires '}' !in fmt
    ensures Close(fmt + "}" + rest) == |fmt|
  {
    var s := fmt + "}" + rest;
    if fmt != "" {
      assert s[0] == fmt[0] && s[1..] == fmt[1..] + "}" + rest;
      CloseIs(fmt[1..], rest);
    }
  }

  /** Plain characters join the waiting literal. */
  lemma {:induction false} ParsePlain(l: string, rest: string, nstr: string)
    requires '%' !in l
    ensures Parse(l + rest, nstr) == Parse(rest, nstr + l)
    decreases |l|
  {
    if l == "" {
      assert l + rest == rest && nstr + l == nstr;
    } else {
      assert (l + rest)[1..] == l[1..] + rest;
      assert nstr + [l[0]] + l[1..] == nstr + l;
      ParsePlain(l[1..], rest, nstr + [l[0]]);
    }
  }

  lemma FindsBraced(key: string, fmt: string, rest: string)
    requires Proper(Directive(key, fmt))
    ensures var text := "%" + key + "{" + fmt + "}";
            FindDirective(text + rest) == Found(Directive(key, fmt), |text|)
  {
    var s := "%" + key + "{" + fmt + "}" + rest;
    assert s[1..] == key + ("{" + fmt + "}" + rest);
    KeyLenIs(key, "{" + fmt + "}" + rest);
    var k := 1 + |key|;
    assert s[1..k] == key && s[k] == '{';
    assert s[k + 1..] == fmt + "}" + rest;
    hide KeyLen, Proper;
    CloseIs(fmt, rest);
    assert s[k + 1..k + 1 + |fmt|] == fmt;
  }

  lemma FindsBare(key: string, rest: string)
    requires Proper(Directive(key, "")) && !Swallows(rest)
    ensures FindDirective("%" + key + rest) == Found(Directive(key, ""), 1 + |key|)
  {
    var s := "%" + key + rest;
    assert s[1..] == key + rest;
    KeyLenIs(key, rest);
    assert s[1..1 + |key|] == key;
  }

  lemma ParseDirective(text: string, t: Token, rest: string, nstr: string)
    requires t.Directive? && Proper(t) && Spells(text, t, rest)
    ensures Parse(text + rest, nstr)
         == Parsed(Flush(nstr) + [t] + Parse(rest, "").tokens, Parse(rest, "").broken)
  {
    var s := text + rest;
    assert s[0] == '%' && s[1] == t.key[0] && s[|text|..] == rest;
    if text == "%" + t.key + "{" + t.fmt + "}" {
      FindsBraced(t.key, t.fmt, rest);
    } else {
      FindsBare(t.key, rest);
    }
  }

  /** Parsing undoes every printing of a token list in normal form. */
  lemma {:induction false} ParseUndoesPrint(ts: seq<Token>, p: string)
    requires Normal(ts) && Prints(ts, p)
    ensures Parse(p, "") == Parsed(ts, false)
    decreases |ts|
  {
    hide Prints, Spells;
    if ts == [] {
      PrintsNothing(p);
    } else {
      var text, rest := PrintsFirst(ts, p);
      assert ts == [ts[0]] + ts[1..];
      hide Parse;
      if ts[0].Directive? {
        ParseDirective(text, ts[0], rest, "");
        ParseUndoesPrint(ts[1..], rest);
        assert Flush("") + [ts[0]] == [ts[0]];
      } else {
        SpellsLiteral(text, ts[0], rest);
        ParsePlain(text, rest, "");
        assert "" + text == text;
        AfterLiteral(text, ts[1..], rest);
      }
    }
  }

  lemma SpellsLiteral(text: string, t: Token, rest: string)
    requires t.Literal?
    ensures Spells(text, t, rest) <==> text == t.text
  {}

  /** The tokens after a literal, which starts none of them. */
  lemma {:induction false} AfterLiteral(l: string, ts: seq<Token>, p: string)
    requires l != "" && Normal(ts) && Prints(ts, p) && (ts != [] ==> ts[0].Directive?)
    ensures Parse(p, l) == Parsed([Literal(l)] + ts, false)
    decreases |ts|, 0
  {
    hide Prints, Spells;
    if ts == [] {
      PrintsNothing(p);
      assert [Literal(l)] + ts == [Literal(l)];
    } else {
      var text, rest := PrintsFirst(ts, p);
      assert Proper(ts[0]) && Normal(ts[1..]);
      hide Parse, Proper, Normal;
      ParseDirective(text, ts[0], rest, l);
      ParseUndoesPrint(ts[1..], rest);
      Recombine(Literal(l), ts);
    }
  }

  lemma Recombine(t: Token, ts: seq<Token>)
    requires ts != []
    ensures [t] + ts == [t] + [ts[0]] + ts[1..]
  {}

  // ---------------------------------------------------------------- the tokens tile the pattern

  /** A found directive is spelt by the characters it was found in. */
  lemma FoundSpells(s: string)
    requires s != "" && s[0] == '%' && FindDirective(s).Found?
    ensures var f := FindDirective(s); Spells(s[..f.len], f.token, s[f.len..])
  {
    var k := 1 + KeyLen(s[1..]);
    if k == |s| || s[k] != '{' {
      assert s[..k] == "%" + s[1..k];
      assert k < |s| ==> s[k] == s[1..][k - 1];
    } else {
      var c := k + 1 + Close(s[k + 1..]);
      assert s[c] == s[k + 1..][c - k - 1];
      assert s[..c + 1] == "%" + s[1..k] + "{" + s[k + 1..c] + "}";
    }
  }

  /** If no brace is left open, the consumed characters of the tokens, in order, are the pattern. */
  lemma {:induction false} ParsePrints(s: string, nstr: string)
    requires !Parse(s, nstr).broken
    ensures Prints(Parse(s, nstr).tokens, nstr + s)
    decreases |s|
  {
    hide Prints, Spells, FindDirective;
    if s == "" {
      PrintsNothing("");
      FlushPrints(nstr, [], "");
      assert Flush(nstr) + [] == Flush(nstr);
    } else if s[0] != '%' {
      assert nstr + s == nstr + [s[0]] + s[1..];
      ParsePrints(s[1..], nstr + [s[0]]);
    } else if |s| > 1 && s[1] == '%' {
      assert nstr + s == nstr + "%" + s[1..];
      ParsePrints(s[1..], nstr + "%");
    } else {
      var f := FindDirective(s);
      FoundSpells(s);
      ParsePrints(s[f.len..], "");
      var ts := Parse(s[f.len..], "").tokens;
      assert "" + s[f.len..] == s[f.len..] && s == s[..f.len] + s[f.len..];
      PrintsMore(f.token, s[..f.len], ts, s[f.len..]);
      FlushPrints(nstr, [f.token] + ts, s);
      assert Flush(nstr) + [f.token] + ts == Flush(nstr) + ([f.token] + ts);
    }
  }

  lemma FlushPrints(nstr: string, ts: seq<Token>, p: string)
    requires Prints(ts, p)
    ensures Prints(Flush(nstr) + ts, nstr + p)
  {
    if nstr == "" {
      assert Flush(nstr) + ts == ts && nstr + p == p;
    } else {
      SpellsLiteral(nstr, Literal(nstr), p);
      PrintsMore(Literal(nstr), nstr, ts, p);
    }
  }

  /** For token lists in normal form, "parses to" and "is a printing of" are the same. */
  lemma ParseIffPrints(ts: seq<Token>, p: string)
    requires Normal(ts)
    ensures Parse(p, "") == Parsed(ts, false) <==> Prints(ts, p)
  {
    if Prints(ts, p) {
      ParseUndoesPrint(ts, p);
    }
    if Parse(p, "") == Parsed(ts, false) {
      ParsePrints(p, "");
      assert "" + p == p;
    }
  }

  /** The round trip. */
  lemma RoundTrip(ts: seq<Token>)
    requires Normal(ts)
    ensures Parse(Print(ts), "") == Parsed(ts, false)
  {
    PrintPrints(ts);
    ParseUndoesPrint(ts, Print(ts));
  }

  // ---------------------------------------------------------------- the percent sign

  /** `%%` gives one literal percent sign and leaves the other to start a directive ... */
  lemma PercentStaysOpen(s: string, nstr: string)
    ensures Parse("%%" + s, nstr) == Parse("%" + s, nstr + "%")
  {
    assert ("%%" + s)[1..] == "%" + s;
  }

  /** The characters a token list stands for, not counting the braces around empty formats. */
  function Size(ts: seq<Token>): int {
    if ts == [] then 0
    else (match ts[0]
          case Literal(l) => |l|
          case Directive(key, fmt) => 1 + |key| + (if fmt == "" then 0 else 2 + |fmt|)) + Size(ts[1..])
  }

  lemma {:induction false} SizeConcat(a: seq<Token>, b: seq<Token>)
    ensures Size(a + b) == Size(a) + Size(b)
  {
    if a == [] {
      assert a + b == b;
    } else {
      SizeConcat(a[1..], b);
      assert (a + b)[1..] == a[1..] + b;
    }
  }

  lemma FoundSize(s: string, nstr: string, rest: seq<Token>)
    requires s != "" && s[0] == '%' && FindDirective(s).Found?
    ensures var f := FindDirective(s); Size(Flush(nstr) + [f.token] + rest) % 2 == (|nstr| + f.len + Size(rest)) % 2
  {
    var t := FindDirective(s).token;
    SizeConcat(Flush(nstr) + [t], rest);
    SizeConcat(Flush(nstr), [t]);
    assert Size([t]) % 2 == FindDirective(s).len % 2;
  }

  lemma ErrorSize(rest: seq<Token>)
    ensures Size([Literal(PATTERN_ERROR)] + rest) == 17 + Size(rest)
  {
    SizeConcat([Literal(PATTERN_ERROR)], rest);
  }

  /** A pattern stands for as many characters as it has, up to an even number: braces around an empty
      format count two less, an unclosed brace turns one character into seventeen. */
  lemma {:induction false} SizeParity(s: string, nstr: string)
    ensures Size(Parse(s, nstr).tokens) % 2 == (|s| + |nstr|) % 2
    decreases |s|
  {
    hide Size, FindDirective;
    if s == "" {
      FlushSize(nstr);
    } else if s[0] != '%' {
      SizeParity(s[1..], nstr + [s[0]]);
    } else if |s| > 1 && s[1] == '%' {
      SizeParity(s[1..], nstr + "%");
    } else {
      match FindDirective(s)
      case Found(t, len) =>
        SizeParity(s[len..], "");
        FoundSize(s, nstr, Parse(s[len..], "").tokens);
      case Unclosed =>
        SizeParity(s[1..], nstr);
        ErrorSize(Parse(s[1..], nstr).tokens);
    }
  }

  lemma FlushSize(nstr: string)
    ensures Size(Flush(nstr)) == |nstr|
  {}

  /** ... so it never is the escape that the comment above `init` announces: whatever follows, open braces
      included, the tokens are not those of a literal percent sign and the rest. */
  lemma PercentIsNoEscape(s: string, nstr: string)
    ensures Parse("%%" + s, nstr).tokens != Parse(s, nstr + "%").tokens
  {
    hide Parse, Size;
    SizeParity("%%" + s, nstr);
    SizeParity(s, nstr + "%");
  }

  /** At the end of a pattern it leaves an empty key behind. */
  lemma PercentAtTheEnd(nstr: string)
    ensures Parse("%%", nstr) == Parsed([Literal(nstr + "%"), Directive("", "")], false)
  {
    PercentStaysOpen("", nstr);
    assert "%%" + "" == "%%" && "%" + "" == "%" && "%"[1..] == "";
    assert FindDirective("%") == Found(Directive("", ""), 1);
    assert Flush(nstr + "%") + [Directive("", "")] + [] == [Literal(nstr + "%"), Directive("", "")];
  }

  // ---------------------------------------------------------------- items

  /** What a token becomes: a fixed text, or a field of the event with its format. */
  datatype Item = Text(text: string) | Field(key: string, fmt: string)

  const FIELDS: set<string> := {"m", "p", "r", "c", "t", "n", "d", "f", "l", "T", "F", "N"}

  predicate Known(t: Token) { t.Literal? || t.key in FIELDS }

  function ItemOf(t: Token): Item {
    match t
    case Literal(l) => Text(l)
    case Directive(key, fmt) => if key in FIELDS then Field(key, fmt) else Text("<<error_format %" + key + ">>")
  }

  function Items(ts: seq<Token>): (r: seq<Item>)
    ensures |r| == |ts| && forall n :: 0 <= n < |ts| ==> r[n] == ItemOf(ts[n])
  {
    if ts == [] then [] else [ItemOf(ts[0])] + Items(ts[1..])
  }

  predicate AllKnown(ts: seq<Token>) {
    forall n :: 0 <= n < |ts| ==> Known(ts[n])
  }

  /** What `init` leaves in `m_items` and in `m_error`. */
  function ItemsOf(pattern: string): seq<Item> { Items(Parse(pattern, "").tokens) }

  predicate Faulty(pattern: string) {
    Parse(pattern, "").broken || !AllKnown(Parse(pattern, "").tokens)
  }

  /** The output for one event, given what each field prints. */
  function Output(items: seq<Item>, field: (string, string) -> string): string {
    if items == [] then ""
    else (match items[0] case Text(t) => t case Field(k, f) => field(k, f)) + Output(items[1..], field)
  }

  lemma {:induction false} OutputConcat(a: seq<Item>, b: seq<Item>, field: (string, string) -> string)
    ensures Output(a + b, field) == Output(a, field) + Output(b, field)
  {
    if a == [] {
      assert a + b == b;
    } else {
      assert (a + b)[1..] == a[1..] + b;
      OutputConcat(a[1..], b, field);
    }
  }

  /** A printing of a normal token list with known keys is accepted, and its output is what the tokens
      say: the literals as they are, the fields as they print. */
  lemma OutputOfPrinting(ts: seq<Token>, p: string, field: (string, string) -> string)
    requires Normal(ts) && Prints(ts, p)
    ensures Faulty(p) <==> !AllKnown(ts)
    ensures AllKnown(ts) ==> Output(ItemsOf(p), field) == Rendered(ts, field)
  {
    ParseUndoesPrint(ts, p);
    if AllKnown(ts) {
      KnownOutput(ts, field);
    }
  }

  function Rendered(ts: seq<Token>, field: (string, string) -> string): string {
    if ts == [] then ""
    else (match ts[0] case Literal(l) => l case Directive(k, f) => field(k, f)) + Rendered(ts[1..], field)
  }

  lemma {:induction false} KnownOutput(ts: seq<Token>, field: (string, string) -> string)
    requires AllKnown(ts)
    ensures Output(Items(ts), field) == Rendered(ts, field)
  {
    if ts != [] {
      assert Known(ts[0]);
      assert forall n :: 0 <= n < |ts| - 1 ==> ts[1..][n] == ts[n + 1];
      KnownOutput(ts[1..], field);
      assert Items(ts)[1..] == Items(ts[1..]);
    }
  }

  /** An unclosed brace: the message goes before what was waiting, and the scan resumes behind the
      percent sign. */
  lemma UnclosedResumes(s: string, nstr: string)
    requires s != "" && s[0] == '%' && (|s| > 1 ==> s[1] != '%')
    ensures var r := Parse(s, nstr);
            FindDirective(s).Unclosed? ==> r == Parsed([Literal(PATTERN_ERROR)] + Parse(s[1..], nstr).tokens, true)
    ensures FindDirective(s).Unclosed? <==>
              var k := 1 + KeyLen(s[1..]); k < |s| && s[k] == '{' && '}' !in s[k + 1..]
  {
    var k := 1 + KeyLen(s[1..]);
    if k < |s| && s[k] == '{' {
      var rest := s[k + 1..];
      if '}' in rest {
        assert Close(rest) < |rest|;
      }
    }
  }
}
