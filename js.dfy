/**
  The few JavaScript built-ins the core relies on: `String.prototype.trim`,
  `Array.prototype.join`, substring search (to state what a message contains),
  and plain objects whose key order `Object.keys` exposes.
 */
module Js {

  /** A value that may be `undefined`. */
  datatype Option<T> = None | Some(value: T)

  /**
    The code points `trim` strips: ECMAScript WhiteSpace (TAB, VT, FF, SP, NBSP,
    ZWNBSP and the Space_Separator category) and LineTerminator (LF, CR, LS, PS).
   */
  predicate IsWhitespace(c: char) {
    var n := c as int;
    n == 0x09 || n == 0x0A || n == 0x0B || n == 0x0C || n == 0x0D || n == 0x20
    || n == 0xA0 || n == 0x1680 || (0x2000 <= n <= 0x200A) || n == 0x2028
    || n == 0x2029 || n == 0x202F || n == 0x205F || n == 0x3000 || n == 0xFEFF
  }

  /** Drops the leading whitespace. */
  function TrimStart(s: string): string {
    if s != [] && IsWhitespace(s[0]) then TrimStart(s[1..]) else s
  }

  /** Drops the trailing whitespace. */
  function TrimEnd(s: string): string {
    if s != [] && IsWhitespace(s[|s| - 1]) then TrimEnd(s[..|s| - 1]) else s
  }

  /** `s.trim()` */
  function Trim(s: string): string {
    TrimEnd(TrimStart(s))
  }

  /** `s.trim() === ''` */
  predicate IsBlankText(s: string) {
    Trim(s) == ""
  }

  /** `TrimStart` removes a whitespace prefix, and all of it: what is left is a suffix not starting with whitespace. */
  lemma {:induction false} TrimStartRemovesLeadingWhitespace(s: string)
    ensures |TrimStart(s)| <= |s| && TrimStart(s) == s[|s| - |TrimStart(s)|..]
    ensures forall i | 0 <= i < |s| - |TrimStart(s)| :: IsWhitespace(s[i])
    ensures TrimStart(s) == [] || !IsWhitespace(TrimStart(s)[0])
  {
    if s != [] && IsWhitespace(s[0]) {
      var rest, t := s[1..], TrimStart(s);
      assert t == TrimStart(rest);
      TrimStartRemovesLeadingWhitespace(rest);
      assert t == rest[|rest| - |t|..];
      assert rest[|rest| - |t|..] == s[|s| - |t|..];
      forall i | 1 <= i < |s| - |t| ensures IsWhitespace(s[i]) {
        assert s[i] == rest[i - 1];
      }
    }
  }

  /** `TrimEnd` removes a whitespace suffix, and all of it: what is left is a prefix not ending in whitespace. */
  lemma {:induction false} TrimEndRemovesTrailingWhitespace(s: string)
    ensures |TrimEnd(s)| <= |s| && TrimEnd(s) == s[..|TrimEnd(s)|]
    ensures forall i | |TrimEnd(s)| <= i < |s| :: IsWhitespace(s[i])
    ensures TrimEnd(s) == [] || !IsWhitespace(TrimEnd(s)[|TrimEnd(s)| - 1])
  {
    if s != [] && IsWhitespace(s[|s| - 1]) {
      var rest, t := s[..|s| - 1], TrimEnd(s);
      TrimEndRemovesTrailingWhitespace(rest);
      assert t == rest[..|t|];
      assert rest[..|t|] == s[..|t|];
      forall i | |t| <= i < |s| - 1 ensures IsWhitespace(s[i]) {
        assert s[i] == rest[i];
      }
    }
  }

  /** A string trims to the empty string exactly when every character in it is whitespace. */
  lemma BlankIffAllWhitespace(s: string)
    ensures IsBlankText(s) <==> forall i | 0 <= i < |s| :: IsWhitespace(s[i])
  {
    TrimStartRemovesLeadingWhitespace(s);
    TrimEndRemovesTrailingWhitespace(TrimStart(s));
  }

  /** `xs.join(sep)` */
  function Join(xs: seq<string>, sep: string): string {
    if |xs| == 0 then ""
    else if |xs| == 1 then xs[0]
    else xs[0] + sep + Join(xs[1..], sep)
  }

  /** `k` occurs in `s` starting at index `i`. */
  predicate InfixAt(k: string, s: string, i: int) {
    0 <= i && i + |k| <= |s| && s[i..i + |k|] == k
  }

  /** `s.includes(k)` */
  predicate IsInfix(k: string, s: string) {
    exists i | 0 <= i <= |s| :: InfixAt(k, s, i)
  }

  /** An occurrence survives text added on either side. */
  lemma InfixExtends(k: string, s: string, i: int, pre: string, post: string)
    requires InfixAt(k, s, i)
    ensures InfixAt(k, pre + s + post, |pre| + i)
  {
    var t := pre + s + post;
    assert t[|pre| + i..|pre| + i + |k|] == s[i..i + |k|];
  }

  /** Every joined element appears in the joined string. */
  lemma {:induction false} JoinContains(xs: seq<string>, sep: string, k: string)
    requires k in xs
    ensures IsInfix(k, Join(xs, sep))
  {
    if |xs| == 1 {
      assert InfixAt(k, Join(xs, sep), 0);
    } else if xs[0] == k {
      InfixExtends(k, k, 0, "", sep + Join(xs[1..], sep));
      assert "" + k + (sep + Join(xs[1..], sep)) == Join(xs, sep);
    } else {
      JoinContains(xs[1..], sep, k);
      var i :| InfixAt(k, Join(xs[1..], sep), i);
      InfixExtends(k, Join(xs[1..], sep), i, xs[0] + sep, "");
      assert xs[0] + sep + Join(xs[1..], sep) + "" == Join(xs, sep);
    }
  }

  /**
    A plain JavaScript object: its entries, and the key order in which
    `Object.keys` / `Object.entries` enumerate them.
   */
  datatype Obj<V> = Obj(keys: seq<string>, entries: map<string, V>) {

    /** What every object satisfies: the key list enumerates exactly the entries, once each. */
    ghost predicate Valid() {
      && (forall k :: k in entries <==> k in keys)
      && (forall i, j | 0 <= i < j < |keys| :: keys[i] != keys[j])
    }
  }
}
