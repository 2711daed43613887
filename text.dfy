/**
  String helpers shared by the models of the Python and JavaScript sources:
  ASCII case mapping, splitting on a one-character separator and joining,
  JavaScript's `slice` and `trim`, and the lexicographic order on strings
  that Python's `sorted` uses.
 */
module Text {

  predicate IsAsciiUpper(c: char) { 'A' <= c <= 'Z' }
  predicate IsAsciiLower(c: char) { 'a' <= c <= 'z' }
  predicate IsDigit(c: char) { '0' <= c <= '9' }

  /** ASCII lower-casing of one character (`str.lower` on ASCII text, `toLowerCase` on status names). */
  function LowerChar(c: char): (d: char)
    ensures IsAsciiUpper(c) ==> IsAsciiLower(d)
    ensures !IsAsciiUpper(c) ==> d == c
  {
    if IsAsciiUpper(c) then (c as int + 32) as char else c
  }

  function Lower(s: string): (r: string)
    ensures |r| == |s|
    ensures forall i :: 0 <= i < |s| ==> r[i] == LowerChar(s[i])
  {
    if s == [] then [] else [LowerChar(s[0])] + Lower(s[1..])
  }

  /** No character of `s` is an ASCII upper-case letter. */
  predicate NoUpper(s: string) {
    forall i :: 0 <= i < |s| ==> !IsAsciiUpper(s[i])
  }

  lemma {:induction false} LowerIdentity(s: string)
    requires NoUpper(s)
    ensures Lower(s) == s
  {
    if s != [] {
      assert NoUpper(s[1..]) by {
        forall i | 0 <= i < |s[1..]| ensures !IsAsciiUpper(s[1..][i]) {
          assert s[1..][i] == s[i + 1];
        }
      }
      LowerIdentity(s[1..]);
    }
  }

  /** `sep.join(parts)` / `parts.join(sep)`. */
  function Join(sep: string, parts: seq<string>): string
  {
    if |parts| == 0 then ""
    else if |parts| == 1 then parts[0]
    else parts[0] + sep + Join(sep, parts[1..])
  }

  /**
    `s.split(sep)` for a one-character separator, as Python and JavaScript
    both define it: the pieces between separators, empty pieces included.
   */
  function Split(s: string, sep: char): (parts: seq<string>)
    ensures |parts| >= 1
  {
    if s == [] then [""]
    else
      var rest := Split(s[1..], sep);
      if s[0] == sep then [""] + rest
      else [[s[0]] + rest[0]] + rest[1..]
  }

  /** The number of occurrences of `c` in `s`. */
  function Count(s: string, c: char): nat
  {
    if s == [] then 0 else (if s[0] == c then 1 else 0) + Count(s[1..], c)
  }

  /** Splitting then joining with the same separator gives back the string. */
  lemma {:induction false} JoinSplit(s: string, sep: char)
    ensures Join([sep], Split(s, sep)) == s
  {
    if s != [] {
      JoinSplit(s[1..], sep);
      var rest := Split(s[1..], sep);
      if s[0] == sep {
        assert Split(s, sep) == [""] + rest;
        if |rest| == 1 {
          assert Join([sep], [""] + rest) == "" + [sep] + rest[0];
        } else {
          assert ([""] + rest)[1..] == rest;
        }
      } else {
        var parts := [[s[0]] + rest[0]] + rest[1..];
        assert parts[1..] == rest[1..];
        if |rest| == 1 {
          assert Join([sep], parts) == [s[0]] + rest[0];
        } else {
          assert rest == [rest[0]] + rest[1..];
          assert Join([sep], rest) == rest[0] + [sep] + Join([sep], rest[1..]);
        }
      }
    }
  }

  /** There is one piece more than there are separators, and no piece contains the separator. */
  lemma {:induction false} SplitPieces(s: string, sep: char)
    ensures |Split(s, sep)| == Count(s, sep) + 1
    ensures forall k, j :: 0 <= k < |Split(s, sep)| && 0 <= j < |Split(s, sep)[k]| ==> Split(s, sep)[k][j] != sep
  {
    if s != [] {
      SplitPieces(s[1..], sep);
      var rest := Split(s[1..], sep);
      if s[0] != sep {
        var parts := Split(s, sep);
        assert parts == [[s[0]] + rest[0]] + rest[1..];
        forall k, j | 0 <= k < |parts| && 0 <= j < |parts[k]| ensures parts[k][j] != sep {
          if k == 0 {
            if j > 0 { assert parts[0][j] == rest[0][j - 1]; }
          } else {
            assert parts[k] == rest[k];
          }
        }
      }
    }
  }

  /** `c` does not occur in `s`. */
  predicate NoChar(s: string, c: char) {
    forall i :: 0 <= i < |s| ==> s[i] != c
  }

  /** A string without the separator splits into itself. */
  lemma {:induction false} SplitNoSep(s: string, sep: char)
    requires NoChar(s, sep)
    ensures Split(s, sep) == [s]
  {
    if s != [] {
      assert NoChar(s[1..], sep) by {
        forall i | 0 <= i < |s[1..]| ensures s[1..][i] != sep { assert s[1..][i] == s[i + 1]; }
      }
      SplitNoSep(s[1..], sep);
      assert [s[0]] + s[1..] == s;
    }
  }

  /** The first piece is everything up to the first separator. */
  lemma {:induction false} SplitConcat(x: string, sep: char, y: string)
    requires NoChar(x, sep)
    ensures Split(x + [sep] + y, sep) == [x] + Split(y, sep)
  {
    if x == [] {
      assert x + [sep] + y == [sep] + y;
      assert ([sep] + y)[1..] == y;
    } else {
      var s := x + [sep] + y;
      assert s[1..] == x[1..] + [sep] + y;
      assert NoChar(x[1..], sep) by {
        forall i | 0 <= i < |x[1..]| ensures x[1..][i] != sep { assert x[1..][i] == x[i + 1]; }
      }
      SplitConcat(x[1..], sep, y);
      assert s[0] == x[0] && s[0] != sep;
      assert [x[0]] + x[1..] == x;
    }
  }

  /** The pieces of two strings joined by one separator are the pieces of the first, then those of the second. */
  lemma {:induction false} SplitAround(x: string, sep: char, y: string)
    ensures Split(x + [sep] + y, sep) == Split(x, sep) + Split(y, sep)
  {
    var s := x + [sep] + y;
    if x == [] {
      assert s == [sep] + y;
      assert s[1..] == y;
    } else {
      assert s[1..] == x[1..] + [sep] + y;
      SplitAround(x[1..], sep, y);
      SplitFirst(x, s, sep, Split(y, sep));
    }
  }

  /** One step of `SplitAround`: the first character of `x` is also the first of `s`. */
  lemma SplitFirst(x: string, s: string, sep: char, ys: seq<string>)
    requires x != [] && s != [] && s[0] == x[0] && Split(s[1..], sep) == Split(x[1..], sep) + ys
    ensures Split(s, sep) == Split(x, sep) + ys
  {
    var rest := Split(x[1..], sep);
    if x[0] == sep {
      SplitAtSep(x, sep);
      SplitAtSep(s, sep);
      AppendAssoc([""], rest, ys);
    } else {
      SplitAtOther(x, sep);
      SplitAtOther(s, sep);
      ConsAppend([x[0]] + rest[0], rest, ys);
    }
  }

  lemma AppendAssoc<T>(a: seq<T>, b: seq<T>, c: seq<T>)
    ensures a + (b + c) == (a + b) + c
  {
  }

  /** `Split` on a string that starts with the separator. */
  lemma SplitAtSep(s: string, sep: char)
    requires s != [] && s[0] == sep
    ensures Split(s, sep) == [""] + Split(s[1..], sep)
  {
  }

  /** `Split` on a string that starts with another character. */
  lemma SplitAtOther(s: string, sep: char)
    requires s != [] && s[0] != sep
    ensures Split(s, sep) == [[s[0]] + Split(s[1..], sep)[0]] + Split(s[1..], sep)[1..]
  {
  }

  /** Replacing the head of a non-empty sequence commutes with appending to it. */
  lemma ConsAppend<T>(h: T, rest: seq<T>, ys: seq<T>)
    requires |rest| >= 1
    ensures [h] + (rest + ys)[1..] == ([h] + rest[1..]) + ys
    ensures (rest + ys)[0] == rest[0]
  {
    assert (rest + ys)[1..] == rest[1..] + ys;
  }

  /** A string has no `c` exactly when neither of its two parts has one. */
  lemma NoCharAppend(a: string, b: string, c: char)
    ensures NoChar(a + b, c) <==> NoChar(a, c) && NoChar(b, c)
  {
    if NoChar(a, c) && NoChar(b, c) {
      forall i | 0 <= i < |a + b| ensures (a + b)[i] != c {
        if i >= |a| { assert (a + b)[i] == b[i - |a|]; }
      }
    }
    if NoChar(a + b, c) {
      forall i | 0 <= i < |b| ensures b[i] != c { assert (a + b)[|a| + i] == b[i]; }
      forall i | 0 <= i < |a| ensures a[i] != c { assert (a + b)[i] == a[i]; }
    }
  }

  /** Two pieces joined by one separator split back into the two. */
  lemma SplitTwo(x: string, sep: char, y: string)
    requires NoChar(x, sep) && NoChar(y, sep)
    ensures Split(x + [sep] + y, sep) == [x, y]
  {
    SplitConcat(x, sep, y);
    SplitNoSep(y, sep);
  }

  /** JavaScript's `s.slice(start, end)`: negative positions count from the end, out-of-range ones are clamped. */
  function Slice(s: string, start: int, end: int): (r: string)
    ensures |r| <= |s|
  {
    var b := if start < 0 then (if |s| + start < 0 then 0 else |s| + start)
             else (if start > |s| then |s| else start);
    var e := if end < 0 then (if |s| + end < 0 then 0 else |s| + end)
             else (if end > |s| then |s| else end);
    if e <= b then "" else s[b..e]
  }

  /** `s.slice(1, s.length - 1)` drops the first and last character, and yields "" when there are fewer than two. */
  lemma StripEnds(s: string)
    ensures Slice(s, 1, |s| - 1) == if |s| >= 2 then s[1..|s| - 1] else ""
  {
  }

  /** The characters JavaScript's `trim` removes (the ASCII ones, no-break space and the byte order mark). */
  predicate IsJsSpace(c: char) {
    c == ' ' || c == '\t' || c == '\n' || c == '\r' || c == '\U{000B}' || c == '\U{000C}'
    || c == '\U{00A0}' || c == '\U{FEFF}'
  }

  function TrimStart(s: string): (r: string)
    ensures |r| <= |s|
    ensures r == [] || !IsJsSpace(r[0])
    ensures r == s[|s| - |r|..]
  {
    if s != [] && IsJsSpace(s[0]) then TrimStart(s[1..]) else s
  }

  function TrimEnd(s: string): (r: string)
    ensures |r| <= |s|
    ensures r == [] || !IsJsSpace(r[|r| - 1])
    ensures r == s[..|r|]
  {
    if s != [] && IsJsSpace(s[|s| - 1]) then TrimEnd(s[..|s| - 1]) else s
  }

  function Trim(s: string): string
  {
    TrimEnd(TrimStart(s))
  }

  /** Lexicographic order on strings, character by character (Python's `<` on `str`). */
  predicate Less(a: string, b: string)
  {
    if a == [] then b != []
    else if b == [] then false
    else if a[0] != b[0] then a[0] < b[0]
    else Less(a[1..], b[1..])
  }

  lemma {:induction false} LessIrreflexive(a: string)
    ensures !Less(a, a)
  {
    if a != [] { LessIrreflexive(a[1..]); }
  }

  lemma {:induction false} LessTransitive(a: string, b: string, c: string)
    requires Less(a, b) && Less(b, c)
    ensures Less(a, c)
  {
    if a != [] && b != [] && c != [] && a[0] == b[0] && b[0] == c[0] {
      LessTransitive(a[1..], b[1..], c[1..]);
    }
  }

  lemma {:induction false} LessTotal(a: string, b: string)
    requires a != b
    ensures Less(a, b) || Less(b, a)
  {
    if a != [] && b != [] && a[0] == b[0] {
      assert a == [a[0]] + a[1..] && b == [b[0]] + b[1..];
      LessTotal(a[1..], b[1..]);
    }
  }

  lemma LessAsymmetric(a: string, b: string)
    requires Less(a, b)
    ensures !Less(b, a)
  {
    if Less(b, a) {
      LessTransitive(a, b, a);
      LessIrreflexive(a);
    }
  }

  /** Strictly increasing: sorted and free of duplicates. */
  ghost predicate StrictlySorted(r: seq<string>)
  {
    forall i, j :: 0 <= i < j < |r| ==> Less(r[i], r[j])
  }

  /** Inserts `x` at its place in a strictly sorted sequence that does not contain it. */
  function Insert(x: string, r: seq<string>): (r': seq<string>)
    requires StrictlySorted(r) && x !in r
    ensures StrictlySorted(r')
    ensures |r'| == |r| + 1
    ensures forall y :: y in r' <==> y == x || y in r
  {
    if r == [] then [x]
    else if Less(x, r[0]) then
      assert forall j :: 0 < j < |r| ==> Less(x, r[j]) by {
        forall j | 0 < j < |r| ensures Less(x, r[j]) { LessTransitive(x, r[0], r[j]); }
      }
      [x] + r
    else
      LessTotal(x, r[0]);
      var tail := Insert(x, r[1..]);
      assert forall y :: y in tail ==> Less(r[0], y);
      [r[0]] + tail
  }

  /** `sorted(list(s))`: the elements of `s` in increasing order, each once. */
  method SortedList(s: set<string>) returns (r: seq<string>)
    ensures StrictlySorted(r)
    ensures |r| == |s|
    ensures forall y :: y in r <==> y in s
  {
    r := [];
    var rest := s;
    while rest != {}
      invariant StrictlySorted(r)
      invariant rest <= s
      invariant forall y :: y in r <==> y in s && y !in rest
      invariant |r| + |rest| == |s|
      decreases |rest|
    {
      var x :| x in rest;
      r := Insert(x, r);
      rest := rest - {x};
    }
  }
}
