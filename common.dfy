/**
 * Small value-level vocabulary shared by every channel server: an Option type
 * for "the key was missing / the call raised", the whitespace classes of
 * Python's `str.isspace` and JavaScript's `String.prototype.trim`, the string
 * functions the servers call (strip, split, lower-casing, path basename,
 * integer formatting) and JavaScript's `||` on strings.
 */
module Common {

  datatype Option<T> = None | Some(value: T)

  /** Characters for which Python's `str.isspace()` is true. */
  predicate IsPySpace(c: char)
  {
    c == ' ' || ('\t' <= c <= '\r') || ('\U{1C}' <= c <= '\U{1F}') ||
    c == '\U{85}' || c == '\U{A0}' || c == '\U{1680}' ||
    ('\U{2000}' <= c <= '\U{200A}') || c == '\U{2028}' || c == '\U{2029}' ||
    c == '\U{202F}' || c == '\U{205F}' || c == '\U{3000}'
  }

  /** Characters removed by JavaScript's `trim()` (WhiteSpace and LineTerminator). */
  predicate IsJsSpace(c: char)
  {
    c == ' ' || ('\t' <= c <= '\r') || c == '\U{A0}' || c == '\U{1680}' ||
    ('\U{2000}' <= c <= '\U{200A}') || c == '\U{2028}' || c == '\U{2029}' ||
    c == '\U{202F}' || c == '\U{205F}' || c == '\U{3000}' || c == '\U{FEFF}'
  }

  /** Drops the leading characters satisfying `sp`. */
  function TrimStart(s: string, sp: char -> bool): string
  {
    if s == [] || !sp(s[0]) then s else TrimStart(s[1..], sp)
  }

  /** What is left is a suffix that does not start with whitespace, and everything dropped was whitespace. */
  lemma {:induction false} TrimStartMeaning(s: string, sp: char -> bool)
    ensures var r := TrimStart(s, sp);
      |r| <= |s| && r == s[|s| - |r|..] && (r == [] || !sp(r[0])) &&
      forall i :: 0 <= i < |s| - |r| ==> sp(s[i])
  {
    if s != [] && sp(s[0]) {
      TrimStartMeaning(s[1..], sp);
      var r := TrimStart(s[1..], sp);
      assert s[1..][|s[1..]| - |r|..] == s[|s| - |r|..];
      forall i | 0 <= i < |s| - |r| ensures sp(s[i]) {
        if i > 0 { assert s[i] == s[1..][i - 1]; }
      }
    }
  }

  /** Drops the trailing characters satisfying `sp`. */
  function TrimEnd(s: string, sp: char -> bool): string
  {
    if s == [] || !sp(s[|s| - 1]) then s else TrimEnd(s[..|s| - 1], sp)
  }

  /** What is left is a prefix that does not end with whitespace, and everything dropped was whitespace. */
  lemma {:induction false} TrimEndMeaning(s: string, sp: char -> bool)
    ensures var r := TrimEnd(s, sp);
      |r| <= |s| && r == s[..|r|] && (r == [] || !sp(r[|r| - 1])) &&
      forall i :: |r| <= i < |s| ==> sp(s[i])
  {
    if s != [] && sp(s[|s| - 1]) {
      var s' := s[..|s| - 1];
      TrimEndMeaning(s', sp);
      var r := TrimEnd(s', sp);
      assert s'[..|r|] == s[..|r|];
      forall i | |r| <= i < |s| ensures sp(s[i]) {
        if i < |s| - 1 { assert s[i] == s'[i]; }
      }
    }
  }

  /** Both ends: Python's `s.strip()` with `IsPySpace`, JavaScript's `s.trim()` with `IsJsSpace`. */
  function Trim(s: string, sp: char -> bool): string
  {
    TrimEnd(TrimStart(s, sp), sp)
  }

  function PyStrip(s: string): string { Trim(s, IsPySpace) }

  function JsTrim(s: string): string { Trim(s, IsJsSpace) }

  /** A trimmed string neither starts nor ends with whitespace. */
  lemma TrimEnds(s: string, sp: char -> bool)
    ensures var r := Trim(s, sp); r == [] || (!sp(r[0]) && !sp(r[|r| - 1]))
  {
    var a := TrimStart(s, sp);
    var r := TrimEnd(a, sp);
    TrimStartMeaning(s, sp);
    TrimEndMeaning(a, sp);
    if r != [] {
      assert r[0] == a[0];
    }
  }

  /** The string has a character that is not whitespace. */
  ghost predicate HasNonSpace(s: string, sp: char -> bool)
  {
    exists i :: 0 <= i < |s| && !sp(s[i])
  }

  /** `s.strip()` is truthy exactly when the text has a non-whitespace character. */
  lemma TrimNonEmptyIff(s: string, sp: char -> bool)
    ensures Trim(s, sp) != [] <==> HasNonSpace(s, sp)
  {
    var a := TrimStart(s, sp);
    var b := TrimEnd(a, sp);
    TrimStartMeaning(s, sp);
    TrimEndMeaning(a, sp);
    if b != [] {
      assert !sp(s[|s| - |a|]) by { assert b[0] == a[0] == s[|s| - |a|]; }
    }
    if HasNonSpace(s, sp) {
      var i :| 0 <= i < |s| && !sp(s[i]);
      assert |s| - |a| <= i;
      assert a[i - (|s| - |a|)] == s[i];
    }
  }

  /** Trimming a string that already ends in whitespace after appending one more space changes nothing. */
  lemma TrimAppendSpace(s: string, sp: char -> bool)
    requires sp(' ')
    ensures Trim(s + " ", sp) == Trim(s, sp)
  {
    var t := s + " ";
    if HasNonSpace(s, sp) {
      var i :| 0 <= i < |s| && !sp(s[i]);
      assert t[i] == s[i];
      TrimStartAppend(s, sp, i);
    } else {
      TrimNonEmptyIff(s, sp);
      assert !HasNonSpace(t, sp) by {
        forall j | 0 <= j < |t| ensures sp(t[j]) {
          if j < |s| { assert t[j] == s[j]; }
        }
      }
      TrimNonEmptyIff(t, sp);
    }
  }

  lemma TrimStartAppend(s: string, sp: char -> bool, i: nat)
    requires sp(' ') && i < |s| && !sp(s[i])
    ensures Trim(s + " ", sp) == Trim(s, sp)
  {
    var a := TrimStart(s, sp);
    var a' := TrimStart(s + " ", sp);
    TrimStartPrefix(s, " ", sp, i);
    assert a' == a + " ";
    TrimEndAppendSpace(a, sp);
  }

  lemma TrimStartPrefix(s: string, u: string, sp: char -> bool, i: nat)
    requires i < |s| && !sp(s[i])
    ensures TrimStart(s + u, sp) == TrimStart(s, sp) + u
    decreases |s|
  {
    if !sp(s[0]) {
    } else {
      assert (s + u)[1..] == s[1..] + u;
      TrimStartPrefix(s[1..], u, sp, i - 1);
    }
  }

  lemma TrimEndAppendSpace(a: string, sp: char -> bool)
    requires sp(' ')
    ensures TrimEnd(a + " ", sp) == TrimEnd(a, sp)
  {
    assert (a + " ")[..|a|] == a;
  }

  /** Length of the run of non-whitespace characters that starts `s`. */
  function WordLength(s: string): (n: nat)
    ensures n <= |s|
    ensures forall i :: 0 <= i < n ==> !IsPySpace(s[i])
    ensures n == |s| || IsPySpace(s[n])
  {
    if s == [] || IsPySpace(s[0]) then 0 else 1 + WordLength(s[1..])
  }

  /** Python's `s.split()` with no argument: the maximal runs of non-whitespace, in order. */
  function Words(s: string): (ws: seq<string>)
    ensures forall k :: 0 <= k < |ws| ==> ws[k] != [] && forall i :: 0 <= i < |ws[k]| ==> !IsPySpace(ws[k][i])
    decreases |s|
  {
    if s == [] then []
    else if IsPySpace(s[0]) then Words(s[1..])
    else
      var n := WordLength(s);
      [s[..n]] + Words(s[n..])
  }

  /** `sep.join(parts)` */
  function Join(parts: seq<string>, sep: string): (r: string)
  {
    if parts == [] then ""
    else if |parts| == 1 then parts[0]
    else parts[0] + sep + Join(parts[1..], sep)
  }

  /** Concatenation of all parts with nothing between them. */
  function Concat<T>(parts: seq<seq<T>>): seq<T>
  {
    if parts == [] then [] else parts[0] + Concat(parts[1..])
  }

  lemma ConcatAppend<T>(parts: seq<seq<T>>, p: seq<T>)
    ensures Concat(parts + [p]) == Concat(parts) + p
  {
    if parts != [] {
      assert (parts + [p])[1..] == parts[1..] + [p];
      ConcatAppend(parts[1..], p);
    }
  }

  /** ASCII lower-casing of one character. */
  function LowerChar(c: char): char
  {
    if 'A' <= c <= 'Z' then (c as int + 32) as char else c
  }

  /** `s.lower()` / `s.toLowerCase()` on ASCII letters. */
  function Lower(s: string): (r: string)
    ensures |r| == |s| && forall i :: 0 <= i < |s| ==> r[i] == LowerChar(s[i])
  {
    seq(|s|, i requires 0 <= i < |s| => LowerChar(s[i]))
  }

  function UpperChar(c: char): char
  {
    if 'a' <= c <= 'z' then (c as int - 32) as char else c
  }

  /** Python's `s.capitalize()` on ASCII letters: first character upper-cased, the rest lower-cased. */
  function Capitalize(s: string): string
  {
    if s == [] then [] else [UpperChar(s[0])] + Lower(s[1..])
  }

  predicate StartsWith(s: string, prefix: string)
  {
    prefix <= s
  }

  predicate EndsWith(s: string, suffix: string)
  {
    |suffix| <= |s| && s[|s| - |suffix|..] == suffix
  }

  /** `sub in s` in Python, `s.includes(sub)` in JavaScript. */
  predicate Contains(s: string, sub: string)
  {
    exists i :: 0 <= i <= |s| - |sub| && OccursAt(s, sub, i)
  }

  predicate OccursAt(s: string, sub: string, i: int)
    requires 0 <= i <= |s| - |sub|
  {
    s[i..i + |sub|] == sub
  }

  predicate HasChar(s: string, c: char)
  {
    exists i :: 0 <= i < |s| && s[i] == c
  }

  /** The text before the first `c` (all of `s` when it has none): `s.split(c)[0]`. */
  function BeforeChar(s: string, c: char): string
  {
    if s == [] then []
    else if s[0] == c then []
    else [s[0]] + BeforeChar(s[1..], c)
  }

  /** The text after the first `c` (empty when it has none): `s.split(c, 1)[1]` when `c` occurs. */
  function AfterChar(s: string, c: char): string
  {
    if s == [] then []
    else if s[0] == c then s[1..]
    else AfterChar(s[1..], c)
  }

  /** Splitting at the first `c`: the two sides rejoin around it, and the side before holds no `c`. */
  lemma SplitAtChar(s: string, c: char)
    ensures !HasChar(BeforeChar(s, c), c)
    ensures HasChar(s, c) ==> BeforeChar(s, c) + [c] + AfterChar(s, c) == s
    ensures !HasChar(s, c) ==> BeforeChar(s, c) == s && AfterChar(s, c) == []
  {
    BeforeCharHasNoChar(s, c);
    if HasChar(s, c) {
      SplitAtCharRejoin(s, c);
    } else {
      SplitWithoutChar(s, c);
    }
  }

  lemma {:induction false} BeforeCharHasNoChar(s: string, c: char)
    ensures !HasChar(BeforeChar(s, c), c)
  {
    if s != [] && s[0] != c {
      BeforeCharHasNoChar(s[1..], c);
      var b := BeforeChar(s[1..], c);
      assert BeforeChar(s, c) == [s[0]] + b;
      forall i | 0 <= i < |[s[0]] + b| ensures ([s[0]] + b)[i] != c {
        if i > 0 {
          assert ([s[0]] + b)[i] == b[i - 1];
        }
      }
    }
  }

  lemma {:induction false} SplitAtCharRejoin(s: string, c: char)
    requires HasChar(s, c)
    ensures BeforeChar(s, c) + [c] + AfterChar(s, c) == s
  {
    if s[0] != c {
      assert HasChar(s[1..], c) by {
        var i :| 0 <= i < |s| && s[i] == c;
        assert s[1..][i - 1] == c;
      }
      SplitAtCharRejoin(s[1..], c);
      assert s == [s[0]] + s[1..];
    }
  }

  lemma {:induction false} SplitWithoutChar(s: string, c: char)
    requires !HasChar(s, c)
    ensures BeforeChar(s, c) == s && AfterChar(s, c) == []
  {
    if s != [] {
      assert !HasChar(s[1..], c) by {
        forall i | 0 <= i < |s[1..]| ensures s[1..][i] != c {
          assert s[1..][i] == s[i + 1];
        }
      }
      SplitWithoutChar(s[1..], c);
      assert s == [s[0]] + s[1..];
    }
  }

  /** `s.split("/")[-1]`: the text after the last slash (all of `s` when it has none). */
  function Basename(s: string): string
  {
    if s == [] then ""
    else if s[|s| - 1] == '/' then ""
    else Basename(s[..|s| - 1]) + [s[|s| - 1]]
  }

  /** The basename is the longest slash-free suffix: a suffix, with no slash, preceded by a slash unless it is all of `s`. */
  lemma {:induction false} BasenameMeaning(s: string)
    ensures var r := Basename(s);
      |r| <= |s| && r == s[|s| - |r|..] && !HasChar(r, '/') && (|r| < |s| ==> s[|s| - |r| - 1] == '/')
  {
    if s != [] && s[|s| - 1] != '/' {
      var init := s[..|s| - 1];
      BasenameMeaning(init);
      var r0 := Basename(init);
      var r := r0 + [s[|s| - 1]];
      assert r == s[|s| - |r|..];
      assert forall i :: 0 <= i < |r0| ==> r[i] == r0[i];
      if |r| < |s| {
        assert s[|s| - |r| - 1] == init[|init| - |r0| - 1];
      }
    }
  }

  function DigitChar(d: nat): char
    requires d < 10
  {
    ('0' as int + d) as char
  }

  /** Decimal text of a natural number, as `str(n)` and `String(n)` produce it. */
  function NatToString(n: nat): (r: string)
    ensures r != []
    ensures forall i :: 0 <= i < |r| ==> '0' <= r[i] <= '9'
  {
    if n < 10 then [DigitChar(n)] else NatToString(n / 10) + [DigitChar(n % 10)]
  }

  function IntToString(n: int): string
  {
    if n < 0 then "-" + NatToString(-n) else NatToString(n)
  }

  /**
   * JavaScript's `a || b` where `a` may be undefined: the first operand when it
   * is a non-empty string, the second otherwise.
   */
  function OrElse(a: Option<string>, b: string): (r: string)
    ensures a.Some? && a.value != "" ==> r == a.value
    ensures (a.None? || a.value == "") ==> r == b
  {
    if a.Some? && a.value != "" then a.value else b
  }

  /** Python's `values.get(key, default)`: the value when the key is present (even if empty), the default otherwise. */
  function GetOr(a: Option<string>, default: string): (r: string)
    ensures a.Some? ==> r == a.value
    ensures a.None? ==> r == default
  {
    if a.Some? then a.value else default
  }

  /** Python and JavaScript truthiness of an optional string. */
  predicate Truthy(a: Option<string>)
  {
    a.Some? && a.value != ""
  }

  /**
   * The consecutive slices `s[i:i+n]` for `i` in `range(0, len(s), n)`, as the
   * channels split a long reply: each slice but the last is `n` long.
   */
  function Slices<T>(s: seq<T>, n: nat): seq<seq<T>>
    requires n > 0
    decreases |s|
  {
    if s == [] then []
    else if |s| <= n then [s]
    else [s[..n]] + Slices(s[n..], n)
  }

  /** Splitting and rejoining gives the text back, in ceil(|s| / n) slices of at most `n`, all but the last full. */
  lemma {:induction false} SlicesMeaning<T>(s: seq<T>, n: nat)
    requires n > 0
    ensures Concat(Slices(s, n)) == s
    ensures (|Slices(s, n)| - 1) * n < |s| <= |Slices(s, n)| * n
    ensures forall k :: 0 <= k < |Slices(s, n)| ==> 0 < |Slices(s, n)[k]| <= n
    ensures forall k :: 0 <= k < |Slices(s, n)| - 1 ==> |Slices(s, n)[k]| == n
    decreases |s|
  {
    if s != [] && |s| > n {
      var rest := Slices(s[n..], n);
      SlicesMeaning(s[n..], n);
      assert Slices(s, n) == [s[..n]] + rest;
      assert ([s[..n]] + rest)[1..] == rest;
      assert s[..n] + s[n..] == s;
      assert |Slices(s, n)| * n == |rest| * n + n;
      assert (|Slices(s, n)| - 1) * n == (|rest| - 1) * n + n;
      forall k | 0 <= k < |Slices(s, n)| ensures 0 < |Slices(s, n)[k]| <= n {
        if k > 0 { assert Slices(s, n)[k] == rest[k - 1]; }
      }
      forall k | 0 <= k < |Slices(s, n)| - 1 ensures |Slices(s, n)[k]| == n {
        if k > 0 { assert Slices(s, n)[k] == rest[k - 1]; }
      }
    } else if s != [] {
      assert Concat([s]) == s + Concat<T>([]);
    }
  }

  /** A reply as the WhatsApp channels deliver it: one message inline, the rest as follow-up messages. */
  datatype Delivered = Delivered(inline: string, followUps: seq<string>)

  /** A reply of at most `limit` characters goes inline; a longer one is sliced, first slice inline. */
  function Deliver(text: string, limit: nat): Delivered
    requires limit > 0
  {
    if |text| > limit then
      var parts := Slices(text, limit);
      Delivered(parts[0], parts[1..])
    else Delivered(text, [])
  }

  /** Delivery loses nothing, every message fits the limit, and a short reply is sent whole. */
  lemma DeliverMeaning(text: string, limit: nat)
    requires limit > 0
    ensures var d := Deliver(text, limit);
      d.inline + Concat(d.followUps) == text &&
      |d.inline| <= limit &&
      (|text| <= limit ==> d == Delivered(text, [])) &&
      (|text| > limit ==> |d.inline| == limit && d.followUps != []) &&
      forall k :: 0 <= k < |d.followUps| ==> 0 < |d.followUps[k]| <= limit
  {
    if |text| > limit {
      var parts := Slices(text, limit);
      SlicesMeaning(text, limit);
      assert Concat(parts) == parts[0] + Concat(parts[1..]);
      forall k | 0 <= k < |parts[1..]| ensures 0 < |parts[1..][k]| <= limit {
        assert parts[1..][k] == parts[k + 1];
      }
    }
  }
}
