/** JSON Pointer paths (RFC 6901) as `rekuest_next/state/observable.py` builds them. */
module JsonPointer {
  import opened Prelude

  // ---------------------------------------------------------------- escaping, section 3 of RFC 6901

  /** `s.replace(c, sub)` for a single character. */
  function ReplaceChar(s: string, c: char, sub: string): string {
    if s == [] then [] else (if s[0] == c then sub else [s[0]]) + ReplaceChar(s[1..], c, sub)
  }

  /** `s.replace([a, b], by)`, left to right without overlap. */
  function ReplacePair(s: string, a: char, b: char, sub: char): string {
    if |s| < 2 then s
    else if s[0] == a && s[1] == b then [sub] + ReplacePair(s[2..], a, b, sub)
    else [s[0]] + ReplacePair(s[1..], a, b, sub)
  }

  /** `_escape_json_pointer`. */
  function Escape(key: string): string {
    ReplaceChar(ReplaceChar(key, '~', "~0"), '/', "~1")
  }

  /** Evaluation, section 4 of RFC 6901: `~1` first, then `~0`. */
  function Unescape(token: string): string {
    ReplacePair(ReplacePair(token, '~', '1', '/'), '~', '0', '~')
  }

  /** Every `~` is followed by `0`. */
  ghost predicate TildesEscaped(s: string) {
    forall i :: 0 <= i < |s| && s[i] == '~' ==> i + 1 < |s| && s[i + 1] == '0'
  }

  lemma {:induction false} TildePassReverts(key: string)
    ensures TildesEscaped(ReplaceChar(key, '~', "~0"))
    ensures ReplacePair(ReplaceChar(key, '~', "~0"), '~', '0', '~') == key
  {
    if key != [] {
      var rest := ReplaceChar(key[1..], '~', "~0");
      TildePassReverts(key[1..]);
      if key[0] == '~' {
        assert ("~0" + rest)[2..] == rest;
        assert TildesEscaped("~0" + rest) by {
          assert forall i :: 2 <= i < |rest| + 2 ==> ("~0" + rest)[i] == rest[i - 2];
        }
      } else {
        assert ([key[0]] + rest)[1..] == rest;
        assert TildesEscaped([key[0]] + rest) by {
          assert forall i :: 1 <= i < |rest| + 1 ==> ([key[0]] + rest)[i] == rest[i - 1];
        }
      }
      assert key == [key[0]] + key[1..];
    }
  }

  lemma {:induction false} SlashPassReverts(s: string)
    requires TildesEscaped(s)
    ensures ReplacePair(ReplaceChar(s, '/', "~1"), '~', '1', '/') == s
    ensures '/' !in ReplaceChar(s, '/', "~1")
  {
    if s != [] {
      var rest := ReplaceChar(s[1..], '/', "~1");
      forall i | 0 <= i < |s[1..]| && s[1..][i] == '~' ensures i + 1 < |s[1..]| && s[1..][i + 1] == '0' {
        assert s[i + 1] == '~' && s[i + 2] == '0';
      }
      SlashPassReverts(s[1..]);
      assert s == [s[0]] + s[1..];
      if s[0] == '/' {
        assert ("~1" + rest)[2..] == rest;
      } else {
        assert ([s[0]] + rest)[1..] == rest;
        if s[0] == '~' {
          assert s[1] == '0' && rest[0] == '0';
        }
      }
    }
  }

  /** Escaping goes character by character: a tilde becomes `~0`, a slash `~1`, and anything else stays. */
  lemma {:induction false} EscapeIsCharwise(a: string, b: string, c: char)
    ensures Escape(a + b) == Escape(a) + Escape(b)
    ensures Escape([c]) == if c == '~' then "~0" else if c == '/' then "~1" else [c]
  {
    ReplaceAppends(a, b, '~', "~0");
    ReplaceAppends(ReplaceChar(a, '~', "~0"), ReplaceChar(b, '~', "~0"), '/', "~1");
    ReplaceOne(c, '~', "~0");
    ReplaceOne(c, '/', "~1");
    ReplaceOne('~', '/', "~1");
    ReplaceOne('0', '/', "~1");
    ReplaceAppends("~", "0", '/', "~1");
    assert "~" + "0" == "~0";
  }

  lemma ReplaceOne(x: char, c: char, sub: string)
    ensures ReplaceChar([x], c, sub) == if x == c then sub else [x]
  {
    assert [x][1..] == [];
  }

  lemma {:induction false} ReplaceAppends(a: string, b: string, c: char, sub: string)
    ensures ReplaceChar(a + b, c, sub) == ReplaceChar(a, c, sub) + ReplaceChar(b, c, sub)
  {
    if a == [] {
      assert a + b == b;
    } else {
      assert (a + b)[1..] == a[1..] + b;
      ReplaceAppends(a[1..], b, c, sub);
    }
  }

  /** Any key survives being escaped into a path and read back, and cannot be mistaken for two tokens. */
  lemma EscapeRoundTrip(key: string)
    ensures Unescape(Escape(key)) == key
    ensures '/' !in Escape(key)
  {
    TildePassReverts(key);
    SlashPassReverts(ReplaceChar(key, '~', "~0"));
  }

  // ---------------------------------------------------------------- paths

  function Split(s: string): seq<string> {
    if s == [] then [""]
    else if s[0] == '/' then [""] + Split(s[1..])
    else var rest := Split(s[1..]);
      if rest == [] then [[s[0]]] else [[s[0]] + rest[0]] + rest[1..]
  }

  function UnescapeAll(tokens: seq<string>): (r: seq<string>)
    ensures |r| == |tokens|
  {
    if tokens == [] then [] else [Unescape(tokens[0])] + UnescapeAll(tokens[1..])
  }

  /** The reference tokens of a path; a path that is not empty starts with a slash. */
  function Parse(path: string): Option<seq<string>> {
    if path == "" then Some([])
    else if path[0] == '/' then Some(UnescapeAll(Split(path[1..])))
    else None
  }

  /** `_make_path` for a string key. */
  function MakePath(base: string, key: string): string {
    base + "/" + Escape(key)
  }

  lemma {:induction false} SplitNonEmpty(s: string)
    ensures Split(s) != []
  {
    if s != [] {
      SplitNonEmpty(s[1..]);
    }
  }

  lemma {:induction false} SplitPlain(s: string)
    requires '/' !in s
    ensures Split(s) == [s]
  {
    if s != [] {
      SplitPlain(s[1..]);
      assert s == [s[0]] + s[1..];
    }
  }

  lemma {:induction false} SplitAppend(a: string, e: string)
    requires '/' !in e
    ensures Split(a + "/" + e) == Split(a) + [e]
  {
    var all := a + "/" + e;
    if a == [] {
      assert all[1..] == e;
      SplitPlain(e);
    } else {
      assert all[1..] == a[1..] + "/" + e;
      SplitAppend(a[1..], e);
      SplitNonEmpty(a[1..]);
    }
  }

  lemma {:induction false} UnescapeAllAppend(tokens: seq<string>, e: string)
    ensures UnescapeAll(tokens + [e]) == UnescapeAll(tokens) + [Unescape(e)]
  {
    if tokens != [] {
      assert (tokens + [e])[1..] == tokens[1..] + [e];
      UnescapeAllAppend(tokens[1..], e);
    } else {
      assert tokens + [e] == [e];
    }
  }

  lemma TokenAppended(base: string, e: string)
    requires Parse(base).Some? && '/' !in e
    ensures Parse(base + "/" + e) == Some(Parse(base).value + [Unescape(e)])
  {
    var path := base + "/" + e;
    if base == "" {
      assert path[1..] == e;
      SplitPlain(e);
      UnescapeAllAppend([], e);
      assert [] + [e] == [e];
      assert Parse(path) == Some(UnescapeAll([e]));
    } else {
      assert path[1..] == base[1..] + "/" + e;
      SplitAppend(base[1..], e);
      UnescapeAllAppend(Split(base[1..]), e);
    }
  }

  /** A path made from a base and any key parses to the base's tokens and then that key. */
  lemma MakePathParses(base: string, key: string)
    requires Parse(base).Some?
    ensures Parse(MakePath(base, key)) == Some(Parse(base).value + [key])
  {
    EscapeRoundTrip(key);
    TokenAppended(base, Escape(key));
  }

  // ---------------------------------------------------------------- array indices, section 4 of RFC 6901

  function Digit(n: nat): char
    requires n < 10
  {
    '0' + n as char
  }

  predicate IsDigit(c: char) {
    '0' <= c <= '9'
  }

  /** `str(n)`. */
  function IndexToken(n: nat): string {
    if n < 10 then [Digit(n)] else IndexToken(n / 10) + [Digit(n % 10)]
  }

  function Number(digits: string): nat
    requires forall i :: 0 <= i < |digits| ==> IsDigit(digits[i])
  {
    if digits == [] then 0
    else 10 * Number(digits[..|digits| - 1]) + DigitValue(digits[|digits| - 1])
  }

  function DigitValue(c: char): nat
    requires IsDigit(c)
  {
    c as int - '0' as int
  }

  /** Digits without a leading zero. */
  function ParseIndex(token: string): Option<nat> {
    if token != [] && (forall i :: 0 <= i < |token| ==> IsDigit(token[i])) && (token[0] != '0' || |token| == 1) then
      Some(Number(token))
    else
      None
  }

  lemma {:induction false} IndexTokenDigits(n: nat)
    ensures var t := IndexToken(n);
      && t != [] && (forall i :: 0 <= i < |t| ==> IsDigit(t[i]))
      && (n > 0 ==> t[0] != '0')
      && Number(t) == n
  {
    if n >= 10 {
      IndexTokenDigits(n / 10);
      assert IndexToken(n)[..|IndexToken(n)| - 1] == IndexToken(n / 10);
    } else {
      assert IndexToken(n)[..0] == [];
    }
  }

  lemma IndexRoundTrip(n: nat)
    ensures ParseIndex(IndexToken(n)) == Some(n)
  {
    IndexTokenDigits(n);
    if n < 10 {
      assert |IndexToken(n)| == 1;
    }
  }

  /** Only `str(n)` parses to n. */
  lemma {:induction false} ParsedIndexIsToken(s: string)
    requires ParseIndex(s).Some?
    ensures IndexToken(ParseIndex(s).value) == s
    decreases |s|
  {
    var front, last := s[..|s| - 1], s[|s| - 1];
    assert s == front + [last] && Digit(DigitValue(last)) == last;
    if |s| > 1 {
      assert front[0] == s[0];
      ParsedIndexIsToken(front);
      assert IndexToken(Number(front)) == front && Number(s) == 10 * Number(front) + DigitValue(last);
      assert Number(front) > 0;
      assert Number(s) / 10 == Number(front) && Number(s) % 10 == DigitValue(last);
    } else {
      assert Number(front) == 0;
    }
  }

  lemma {:induction false} UnescapePlain(s: string)
    requires '~' !in s
    ensures ReplacePair(s, '~', '1', '/') == s && ReplacePair(s, '~', '0', '~') == s
    ensures Unescape(s) == s
  {
    if |s| >= 2 {
      UnescapePlain(s[1..]);
      assert s == [s[0]] + s[1..];
    }
  }

  /** A path made from a base and an index parses to the base's tokens and then that index. */
  lemma IndexPathParses(base: string, n: nat)
    requires Parse(base).Some?
    ensures Parse(base + "/" + IndexToken(n)) == Some(Parse(base).value + [IndexToken(n)])
  {
    IndexTokenDigits(n);
    UnescapePlain(IndexToken(n));
    TokenAppended(base, IndexToken(n));
  }
}
