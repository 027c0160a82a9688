/** The scanner of log patterns, step by step. */
module LogFormatters {
  import opened PatternSpec

  class LogFormatter {
    const pattern: string
    var items: seq<Item>
    var error: bool

    constructor (pattern: string)
      ensures this.pattern == pattern
      ensures items == ItemsOf(pattern) && error == Faulty(pattern)
    {
      this.pattern := pattern;
      items := [];
      error := false;
      new;
      Init();
    }

    /** The inner loop: from behind the percent sign at `i` to the end of the directive. `status` stays 1
        when a brace is not closed. */
    method ScanDirective(i: nat) returns (key: string, fmt: string, status: int, n: nat)
      requires i < |pattern| && pattern[i] == '%'
      ensures status == 0 || status == 1
      ensures status == 1 <==> FindDirective(pattern[i..]).Unclosed?
      ensures status == 0 ==> i < n <= |pattern| && FindDirective(pattern[i..]) == Found(Directive(key, fmt), n - i)
      ensures status == 1 ==> fmt == ""
    {
      ghost var s := pattern[i..];
      ghost var k := i + 1 + KeyLen(s[1..]);
      assert s[1..] == pattern[i + 1..];
      n, status, key, fmt := i + 1, 0, "", "";
      var fmtBegin := 0;
      while n < |pattern|
        invariant i < n <= |pattern|
        invariant status == 0 || status == 1
        invariant fmt == ""
        invariant status == 0 ==> n <= k
        invariant status == 0 ==> key == if n == |pattern| then pattern[i + 1..] else ""
        invariant status == 1 ==> k < n && fmtBegin == k && pattern[k] == '{'
        invariant status == 1 ==> forall j :: k < j < n ==> pattern[j] != '}'
        invariant status == 1 && n < |pattern| ==> key == pattern[i + 1..k]
      {
        assert pattern[n] == pattern[i + 1..][n - i - 1];
        if status == 0 && !IsAlpha(pattern[n]) && pattern[n] != '{' && pattern[n] != '}' {
          key := pattern[i + 1..n];
          FoundBare(i, n);
          return;
        }
        if status == 0 {
          if pattern[n] == '{' {
            key := pattern[i + 1..n];
            status := 1;
            fmtBegin := n;
            n := n + 1;
            continue;
          }
        } else if status == 1 {
          if pattern[n] == '}' {
            fmt := pattern[fmtBegin + 1..n];
            status := 0;
            FoundBraced(i, k, n);
            n := n + 1;
            return;
          }
        }
        n := n + 1;
        if n == |pattern| {
          if key == "" {
            key := pattern[i + 1..];
          }
        }
      }
      if status == 0 {
        FoundBare(i, n);
        assert pattern[i + 1..n] == pattern[i + 1..];
      } else {
        NotFound(i, k);
      }
    }

    lemma FoundBare(i: nat, n: nat)
      requires i < n <= |pattern| && pattern[i] == '%'
      requires n <= i + 1 + KeyLen(pattern[i..][1..])
      requires n < |pattern| ==> !InKey(pattern[n]) && pattern[n] != '{'
      ensures FindDirective(pattern[i..]) == Found(Directive(pattern[i + 1..n], ""), n - i)
    {
      var s := pattern[i..];
      assert n < |pattern| ==> s[1..][n - i - 1] == pattern[n];
      assert s[1..n - i] == pattern[i + 1..n];
    }

    lemma FoundBraced(i: nat, k: nat, n: nat)
      requires i < k < n < |pattern| && pattern[i] == '%'
      requires k == i + 1 + KeyLen(pattern[i..][1..]) && pattern[k] == '{'
      requires pattern[n] == '}' && forall j :: k < j < n ==> pattern[j] != '}'
      ensures FindDirective(pattern[i..]) == Found(Directive(pattern[i + 1..k], pattern[k + 1..n]), n + 1 - i)
    {
      hide Close, KeyLen, InKey;
      var s := pattern[i..];
      var rest := s[k - i + 1..];
      assert rest == pattern[k + 1..] && s[k - i] == '{';
      CloseAt(rest, n - k - 1);
      assert s[1..k - i] == pattern[i + 1..k] && s[k - i + 1..n - i] == pattern[k + 1..n];
    }

    lemma NotFound(i: nat, k: nat)
      requires i < k < |pattern| && pattern[i] == '%'
      requires k == i + 1 + KeyLen(pattern[i..][1..]) && pattern[k] == '{'
      requires forall j :: k < j < |pattern| ==> pattern[j] != '}'
      ensures FindDirective(pattern[i..]).Unclosed?
    {
      var s := pattern[i..];
      var rest := s[k - i + 1..];
      assert rest == pattern[k + 1..] && s[k - i] == '{';
      assert forall j :: 0 <= j < |rest| ==> rest[j] == pattern[k + 1 + j];
      assert Close(rest) == |rest|;
    }

    /** One turn of the outer loop: the tokens it pushes, where it goes on, and what waits then. */
    lemma Turn(i: nat, nstr: string)
      requires i < |pattern|
      ensures var r := Parse(pattern[i..], nstr);
              if pattern[i] != '%' then r == Parse(pattern[i + 1..], nstr + [pattern[i]])
              else if i + 1 < |pattern| && pattern[i + 1] == '%' then r == Parse(pattern[i + 1..], nstr + "%")
              else match FindDirective(pattern[i..])
                case Found(t, len) =>
                  var rest := Parse(pattern[i + len..], "");
                  r.tokens == Flush(nstr) + [t] + rest.tokens && r.broken == rest.broken
                case Unclosed =>
                  var rest := Parse(pattern[i + 1..], nstr);
                  r.tokens == [Literal(PATTERN_ERROR)] + rest.tokens && r.broken
    {
      var s := pattern[i..];
      hide FindDirective;
      assert s[1..] == pattern[i + 1..];
      if s[0] == '%' && FindDirective(s).Found? {
        assert s[FindDirective(s).len..] == pattern[i + FindDirective(s).len..];
      }
    }

    /** The tokens of the pattern, in order. */
    method Scan() returns (vec: seq<Token>)
      modifies this`error
      ensures vec == Parse(pattern, "").tokens
      ensures error == (old(error) || Parse(pattern, "").broken)
    {
      hide FindDirective, Parse;
      vec := [];
      var nstr := "";
      var i := 0;
      assert pattern[0..] == pattern;
      while i < |pattern|
        invariant 0 <= i <= |pattern|
        invariant vec + Parse(pattern[i..], nstr).tokens == Parse(pattern, "").tokens
        invariant (error || Parse(pattern[i..], nstr).broken) == (old(error) || Parse(pattern, "").broken)
      {
        Turn(i, nstr);
        if pattern[i] != '%' {
          nstr := nstr + [pattern[i]];
          i := i + 1;
          continue;
        }
        if i + 1 < |pattern| {
          if pattern[i + 1] == '%' {
            nstr := nstr + "%";
            i := i + 1;
            continue;
          }
        }
        var key, fmt, status, n := ScanDirective(i);
        if status == 0 {
          Grows(vec, nstr, Directive(key, fmt), Parse(pattern[n..], "").tokens);
          if nstr != "" {
            vec := vec + [Literal(nstr)];
            nstr := "";
          }
          vec := vec + [Directive(key, fmt)];
          i := n - 1;
        } else if status == 1 {
          error := true;
          Grows(vec, "", Literal(PATTERN_ERROR), Parse(pattern[i + 1..], nstr).tokens);
          vec := vec + [Literal(PATTERN_ERROR)];
        }
        i := i + 1;
      }
      AtTheEnd(nstr);
      assert pattern[i..] == "";
      if nstr != "" {
        vec := vec + [Literal(nstr)];
      }
    }

    lemma Grows(vec: seq<Token>, nstr: string, t: Token, rest: seq<Token>)
      ensures (if nstr == "" then vec else vec + [Literal(nstr)]) + [t] + rest == vec + (Flush(nstr) + [t] + rest)
      ensures Flush("") + [t] == [t]
    {}

    lemma AtTheEnd(nstr: string)
      ensures Parse("", nstr) == Parsed(Flush(nstr), false)
    {}

    method Init()
      requires items == [] && !error
      modifies this`items, this`error
      ensures items == ItemsOf(pattern) && error == Faulty(pattern)
    {
      var vec := Scan();
      for k := 0 to |vec|
        invariant |items| == k && forall j :: 0 <= j < k ==> items[j] == ItemOf(vec[j])
        invariant error == (Parse(pattern, "").broken || exists j :: 0 <= j < k && !Known(vec[j]))
      {
        match vec[k]
        case Literal(text) =>
          items := items + [Text(text)];
        case Directive(key, fmt) =>
          if key !in FIELDS {
            items := items + [Text("<<error_format %" + key + ">>")];
            error := true;
            assert !Known(vec[k]);
          } else {
            items := items + [Field(key, fmt)];
          }
      }
    }

    /** The items' outputs, in order. */
    method Format(field: (string, string) -> string) returns (ss: string)
      ensures ss == Output(items, field)
    {
      ss := "";
      assert items[..|items|] == items;
      for k := 0 to |items|
        invariant ss == Output(items[..k], field)
      {
        assert items[..k + 1] == items[..k] + [items[k]];
        OutputConcat(items[..k], [items[k]], field);
        match items[k]
        case Text(text) => ss := ss + text;
        case Field(key, fmt) => ss := ss + field(key, fmt);
      }
    }
  }
}
