// Shared values and string operations used by the pastelup model: Go's
// `error` results, optional values, and the handful of `strings` and
// `path/filepath` functions the orchestration code relies on.
module Util {

  /** A Go `error`: `Nil` is success, `Failure` carries the message. */
  datatype Error = Nil | Failure(msg: string)

  datatype Option<T> = None | Some(value: T)

  /** A Go `(T, error)` pair where the value is only meaningful on success. */
  datatype Result<T> = Ok(value: T) | Err(msg: string)

  /** The answer of a command whose output is JSON: the command failed, its
      output did not parse, or it parsed to a value. */
  datatype Reply<T> = CommandFailed(msg: string) | Unparsable(msg: string) | Parsed(value: T)

  // ---------------------------------------------------------------------
  // Decimal numbers

  predicate IsDigit(c: char) { '0' <= c <= '9' }

  /** The value of a non-empty run of decimal digits. */
  function DigitsValue(s: string): (n: nat)
    requires forall i :: 0 <= i < |s| ==> IsDigit(s[i])
    decreases |s|
  {
    if |s| == 0 then 0
    else
      assert IsDigit(s[|s| - 1]);
      DigitsValue(s[..|s| - 1]) * 10 + (s[|s| - 1] as int - '0' as int)
  }

  /** strconv.Atoi: an optional sign followed by at least one digit (the
      64-bit range check is not modelled; an out-of-range number is still
      rejected wherever the model compares it with a count). */
  function Atoi(s: string): (r: Option<int>)
    ensures r.Some? ==> |s| > 0
    ensures r.Some? && r.value < 0 ==> s[0] == '-'
  {
    if |s| == 0 then None
    else
      var sign, digits := if s[0] == '-' then -1 else 1, if s[0] == '-' || s[0] == '+' then s[1..] else s;
      if |digits| > 0 && forall i :: 0 <= i < |digits| ==> IsDigit(digits[i]) then
        Some(sign * DigitsValue(digits))
      else None
  }

  /** The decimal digits of a natural number, most significant first. */
  function NatToString(n: nat): (s: string)
    ensures |s| > 0 && forall i :: 0 <= i < |s| ==> IsDigit(s[i])
    decreases n
  {
    var d := [('0' as int + n % 10) as char];
    if n < 10 then d else NatToString(n / 10) + d
  }

  /** Atoi reads back what NatToString writes. */
  lemma {:induction false} AtoiNatToString(n: nat)
    ensures Atoi(NatToString(n)) == Some(n)
  {
    DigitsOfNat(n);
  }

  lemma {:induction false} DigitsOfNat(n: nat)
    ensures DigitsValue(NatToString(n)) == n
    decreases n
  {
    var s := NatToString(n);
    if n >= 10 {
      DigitsOfNat(n / 10);
      assert s[..|s| - 1] == NatToString(n / 10);
    }
  }

  // ---------------------------------------------------------------------
  // Prefixes, suffixes and substrings

  predicate EndsWith(s: string, suffix: string)
  {
    |suffix| <= |s| && s[|s| - |suffix|..] == suffix
  }

  /** strings.Contains: `sub` occurs at some position of `s`. */
  predicate Contains(s: string, sub: string)
    decreases |s|
  {
    if sub <= s then true
    else if |s| == 0 then false
    else Contains(s[1..], sub)
  }

  /** Contains agrees with "some suffix of s starts with sub". */
  lemma {:induction false} ContainsIff(s: string, sub: string)
    ensures Contains(s, sub) <==> exists i :: 0 <= i <= |s| && sub <= s[i..]
    decreases |s|
  {
    if sub <= s {
      assert s[0..] == s;
    } else if |s| == 0 {
      forall i | 0 <= i <= |s| ensures !(sub <= s[i..]) {
        assert s[i..] == s;
      }
    } else {
      ContainsIff(s[1..], sub);
      forall i | 1 <= i <= |s| ensures s[i..] == s[1..][i - 1..] { }
      if Contains(s[1..], sub) {
        var j :| 0 <= j <= |s[1..]| && sub <= s[1..][j..];
        assert s[1..][j..] == s[j + 1..];
      } else {
        forall i | 0 <= i <= |s| ensures !(sub <= s[i..]) {
          if i == 0 { assert s[0..] == s; } else { assert s[i..] == s[1..][i - 1..]; }
        }
      }
    }
  }

  /** A string assembled around `sub` contains it. */
  lemma {:induction false} ContainsInfix(x: string, sub: string, y: string)
    ensures Contains(x + sub + y, sub)
  {
    ContainsIff(x + sub + y, sub);
    assert (x + sub + y)[|x|..] == sub + y;
  }

  /** strings.TrimSuffix. */
  function TrimSuffix(s: string, suffix: string): (r: string)
    ensures EndsWith(s, suffix) ==> r + suffix == s
    ensures !EndsWith(s, suffix) ==> r == s
  {
    if EndsWith(s, suffix) then s[..|s| - |suffix|] else s
  }

  // ---------------------------------------------------------------------
  // Trimming

  /** unicode.IsSpace, the set strings.TrimSpace removes. */
  predicate IsSpace(c: char)
  {
    c == ' ' || c == '\t' || c == '\n' || c == '\r' || c == '\U{0B}' || c == '\U{0C}'
    || c == '\U{85}' || c == '\U{A0}' || c == '\U{1680}'
    || ('\U{2000}' <= c <= '\U{200A}')
    || c == '\U{2028}' || c == '\U{2029}' || c == '\U{202F}' || c == '\U{205F}' || c == '\U{3000}'
  }

  /** Drops the leading characters that satisfy the cut set. */
  function TrimLeft(s: string, cut: set<char>): (r: string)
    ensures |r| <= |s| && r == s[|s| - |r|..]
    ensures r == [] || r[0] !in cut
    ensures forall k :: 0 <= k < |s| - |r| ==> s[k] in cut
    decreases |s|
  {
    if |s| > 0 && s[0] in cut then TrimLeft(s[1..], cut) else s
  }

  /** Drops the trailing characters that satisfy the cut set. */
  function TrimRight(s: string, cut: set<char>): (r: string)
    ensures |r| <= |s| && r == s[..|r|]
    ensures r == [] || r[|r| - 1] !in cut
    ensures forall k :: |r| <= k < |s| ==> s[k] in cut
    decreases |s|
  {
    if |s| > 0 && s[|s| - 1] in cut then TrimRight(s[..|s| - 1], cut) else s
  }

  /** strings.Trim(s, cutset). */
  function Trim(s: string, cut: set<char>): string
  {
    TrimRight(TrimLeft(s, cut), cut)
  }

  /** The characters of `s` that IsSpace accepts. */
  function SpacesOf(s: string): set<char>
  {
    set c | c in s && IsSpace(c)
  }

  /** strings.TrimSpace. */
  function TrimSpace(s: string): string
  {
    Trim(s, SpacesOf(s))
  }

  /** TrimSpace leaves no leading or trailing white space. */
  lemma TrimSpaceTrimmed(s: string)
    ensures TrimSpace(s) == [] || (!IsSpace(TrimSpace(s)[0]) && !IsSpace(TrimSpace(s)[|TrimSpace(s)| - 1]))
  {
    var cut := SpacesOf(s);
    var l := TrimLeft(s, cut);
    var r := TrimRight(l, cut);
    if r != [] {
      assert r[0] == l[0] && l[0] == s[|s| - |l|];
      assert r[|r| - 1] == l[|r| - 1] && l[|r| - 1] == s[|s| - |l| + |r| - 1];
    }
  }

  // ---------------------------------------------------------------------
  // Replacing, splitting, joining

  /** strings.ReplaceAll for a one-character pattern and replacement. */
  function ReplaceChar(s: string, from: char, to: char): (r: string)
    ensures |r| == |s|
    ensures forall i :: 0 <= i < |s| ==> r[i] == (if s[i] == from then to else s[i])
    ensures from != to ==> from !in r
  {
    seq(|s|, i requires 0 <= i < |s| => if s[i] == from then to else s[i])
  }

  /** strings.Join. */
  function Join(parts: seq<string>, sep: string): string
    decreases |parts|
  {
    if |parts| == 0 then ""
    else if |parts| == 1 then parts[0]
    else parts[0] + sep + Join(parts[1..], sep)
  }

  /** strings.Split for a one-character separator: never empty, and no
      piece holds the separator. Split("", c) is [""], as in Go. */
  function Split(s: string, c: char): (r: seq<string>)
    ensures |r| >= 1
    ensures forall i :: 0 <= i < |r| ==> c !in r[i]
    decreases |s|
  {
    if |s| == 0 then [""]
    else if s[0] == c then [""] + Split(s[1..], c)
    else
      var rest := Split(s[1..], c);
      [[s[0]] + rest[0]] + rest[1..]
  }

  lemma {:induction false} JoinConsHead(ch: char, p: string, ps: seq<string>, sep: string)
    ensures Join([[ch] + p] + ps, sep) == [ch] + Join([p] + ps, sep)
  {
    if |ps| == 0 {
    } else {
      assert ([[ch] + p] + ps)[1..] == ps;
      assert ([p] + ps)[1..] == ps;
    }
  }

  /** Joining the pieces of a split with the separator gives back the input. */
  lemma {:induction false} JoinSplit(s: string, c: char)
    ensures Join(Split(s, c), [c]) == s
    decreases |s|
  {
    if |s| == 0 {
    } else if s[0] == c {
      JoinSplit(s[1..], c);
      var rest := Split(s[1..], c);
      assert ([""] + rest)[1..] == rest;
      assert Join([""] + rest, [c]) == "" + [c] + Join(rest, [c]);
      assert s == [s[0]] + s[1..];
    } else {
      JoinSplit(s[1..], c);
      var rest := Split(s[1..], c);
      JoinConsHead(s[0], rest[0], rest[1..], [c]);
      assert [rest[0]] + rest[1..] == rest;
      assert s == [s[0]] + s[1..];
    }
  }

  /** The last element of strings.Split(s, c): the part after the final `c`. */
  function LastSegment(s: string, c: char): (r: string)
    ensures c !in r
    ensures EndsWith(s, r)
    ensures |r| < |s| ==> s[|s| - |r| - 1] == c
    decreases |s|
  {
    if c !in s then s else LastSegment(s[1..], c)
  }

  lemma {:induction false} SplitNoSep(s: string, c: char)
    requires c !in s
    ensures Split(s, c) == [s]
    decreases |s|
  {
    if |s| > 0 {
      SplitNoSep(s[1..], c);
      assert [s[0]] + s[1..] == s;
    }
  }

  lemma {:induction false} SplitAtLeastTwo(s: string, c: char)
    requires c in s
    ensures |Split(s, c)| >= 2
    decreases |s|
  {
    if s[0] != c {
      SplitAtLeastTwo(s[1..], c);
    }
  }

  /** LastSegment is indeed the final piece of Split. */
  lemma {:induction false} LastSegmentOfSplit(s: string, c: char)
    ensures Split(s, c)[|Split(s, c)| - 1] == LastSegment(s, c)
    decreases |s|
  {
    if |s| == 0 {
    } else if s[0] == c {
      LastSegmentOfSplit(s[1..], c);
      var rest := Split(s[1..], c);
      assert Split(s, c) == [""] + rest;
      assert LastSegment(s, c) == LastSegment(s[1..], c);
    } else if c !in s[1..] {
      assert c !in s by { assert s == [s[0]] + s[1..]; }
      SplitNoSep(s, c);
    } else {
      LastSegmentOfSplit(s[1..], c);
      SplitAtLeastTwo(s[1..], c);
      var rest := Split(s[1..], c);
      var r := Split(s, c);
      assert r == [[s[0]] + rest[0]] + rest[1..];
      assert |r| == |rest| && r[|r| - 1] == rest[|rest| - 1];
      assert LastSegment(s, c) == LastSegment(s[1..], c);
    }
  }

  // ---------------------------------------------------------------------
  // Paths

  /** filepath.Join of two elements with the host separator; empty
      elements are dropped. The result is not cleaned: separators already
      at the end of `dir` are kept, and "." and ".." are not resolved. */
  function PathJoin(sep: char, dir: string, name: string): (r: string)
    ensures |r| == |dir| + |name| + (if dir != "" && name != "" then 1 else 0)
  {
    if dir == "" then name else if name == "" then dir else dir + [sep] + name
  }

  /** The joined path starts with `dir`, ends with `name`, and has the
      separator between them when neither is empty. */
  lemma PathJoinParts(sep: char, dir: string, name: string)
    ensures dir <= PathJoin(sep, dir, name) && EndsWith(PathJoin(sep, dir, name), name)
    ensures dir != "" && name != "" ==> PathJoin(sep, dir, name)[|dir|] == sep
  {
  }
}
